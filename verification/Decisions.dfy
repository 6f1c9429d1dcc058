/** Decisions and commitments: explicit human revisions of earlier records, and
    who authored the words that a revision carries on. */
module Decisions {
  import opened Wrappers
  import opened Memory

  const MAX_BODY_BYTES: nat := 16 * 1024
  const YEAR_SECONDS: int := 365 * 24 * 60 * 60

  predicate Space(c: char) { c == ' ' || '\t' <= c <= '\r' }

  predicate BoundedBody(text: string) { |text| <= MAX_BODY_BYTES && exists i | 0 <= i < |text| :: !Space(text[i]) }

  function Predecessor(s: Store, scope: Scope, id: Id): Option<Record> {
    if id < |s| && s[id].scope == scope && !s[id].protectedPolicy then Some(s[id]) else None
  }

  function DecisionPredecessor(s: Store, scope: Scope, id: Id): Option<Record> {
    var r := Predecessor(s, scope, id);
    if r.Some? && r.value.kind.Decision? && r.value.state != Some(Superseded) then r else None
  }

  /** The predecessor keeps its own dependencies; they stay explicit as long as
      they fit. */
  function Carried(r: Record, id: Id): seq<Id> {
    if id in r.dependencies then r.dependencies
    else if |r.dependencies| == MAX_DEPENDENCIES then [id]
    else r.dependencies + [id]
  }

  /** What a revision says was done. */
  const TRANSITIONED := "explicit human decision state transition"
  const UPDATED := "explicit human commitment update; wording retains original authorship"
  const ASSOCIATED := "human associated verified native execution receipt"
  const REVISED := "explicit human structured decision revision"

  function Revision(r: Record, id: Id, body: Body, timestamp: int, action: string, changedWords: bool): Record {
    var previous := LineageOf(r);
    var semantic :=
      if !r.kind.Correction? then Some(r.kind) else if previous.Some? then previous.value.semanticKind else None;
    var author :=
      if changedWords then Human else if previous.Some? then previous.value.rationaleAuthor else r.origin;
    var source :=
      if changedWords then None
      else if previous.Some? && previous.value.rationaleSource.Some? then previous.value.rationaleSource
      else Some(id);
    Record(r.kind, Human, r.scope, body, Revised(Lineage(action, Human, id, r.origin, author, source, semantic)),
           timestamp, Some(id), Carried(r, id), r.state, false)
  }

  /** A revision that changes when a commitment is due, or whether it is done. */
  function Updated(r: Record, id: Id, commitment: Commitment, now: int): Record {
    Revision(r, id, Committed(commitment), now, UPDATED, false)
  }

  /** A revision that rests on a receipt; a full list of dependencies gives way
      to the predecessor. */
  function Confirmed(r: Record, id: Id, receipt: Id, now: int): Record
    requires r.body.Committed?
  {
    var commitment := r.body.commitment.(completion := ReceiptConfirmed(receipt));
    var next := Revision(r, id, Committed(commitment), now, ASSOCIATED, false);
    var kept := if |next.dependencies| == MAX_DEPENDENCIES then [id] else next.dependencies;
    next.(dependencies := kept + [receipt])
  }

  // The explicit human operations on a decision.

  datatype Op =
    | Transition(state: DecisionState)
    | Schedule(dueAt: int)
    | ReportCompletion(statement: string)
    | ConfirmExecution(receipt: Id)
    | Revise(text: string)

  predicate ReceiptFor(s: Store, scope: Scope, id: Id, receipt: Id) {
    && Active(s, receipt) && s[receipt].origin.System? && s[receipt].kind.Finding? && s[receipt].scope == scope
    && s[receipt].body.Receipt? && s[receipt].body.commitmentId == id && s[receipt].body.succeeded
    && BoundedBody(s[receipt].body.operation)
  }

  /** The record an operation would append, if it may. */
  function RecordOf(s: Store, origin: Origin, scope: Scope, id: Id, op: Op, now: int): Option<Record> {
    var found := DecisionPredecessor(s, scope, id);
    if !origin.Human? || found.None? then None
    else
      var r := found.value;
      match op
      case Transition(state) =>
        Some(Revision(r, id, r.body, now, TRANSITIONED, false).(state := Some(state)))
      case Schedule(dueAt) =>
        if dueAt < now || dueAt > now + YEAR_SECONDS || (r.state != Some(Accepted) && r.state != Some(Deferred))
          then None
        else if !r.body.Committed? || !r.body.commitment.completion.Open? then None
        else Some(Updated(r, id, r.body.commitment.(dueAt := Some(dueAt)), now))
      case ReportCompletion(statement) =>
        if !BoundedBody(statement) || !r.body.Committed? then None
        else Some(Updated(r, id, r.body.commitment.(completion := HumanReported(statement)), now))
      case ConfirmExecution(receipt) =>
        if !ReceiptFor(s, scope, id, receipt) || !r.body.Committed? then None else Some(Confirmed(r, id, receipt, now))
      case Revise(text) =>
        if r.body.Committed? || !BoundedBody(text) then None
        else Some(Revision(r, id, Words(text), now, REVISED, true))
  }

  function Apply(s: Store, origin: Origin, scope: Scope, id: Id, op: Op, now: int, fits: bool): Option<Store> {
    var r := RecordOf(s, origin, scope, id, op, now);
    if r.None? then None else AppendRevision(s, r.value, fits)
  }

  // Recall.

  datatype Recall = Recall(words: Body, actor: Origin, rationaleAuthor: Origin, rationaleSource: Id)

  function RecallOf(s: Store, id: Id, scope: Scope): Option<Recall> {
    if id >= |s| || !s[id].kind.Decision? || !s[id].scope.Permits(scope) then None
    else
      var lineage := LineageOf(s[id]);
      Some(Recall(
        s[id].body, s[id].origin,
        if lineage.None? then s[id].origin else lineage.value.rationaleAuthor,
        if lineage.Some? && lineage.value.rationaleSource.Some? then lineage.value.rationaleSource.value else id))
  }

  /** What is said, apart from when it is due and whether it is done. */
  function WordsOf(b: Body): (string, string) {
    match b
    case Words(text) => (text, "")
    case Committed(c) => (c.commitment, c.condition)
    case Receipt(_, operation, _) => (operation, "")
  }

  // Any chain of operations.

  datatype Request = Request(origin: Origin, scope: Scope, op: Op, now: int, fits: bool)

  /** The store and its current record after a chain of operations, each on the
      record the last one made; one that is refused changes nothing. Any other
      records may be appended in between, revisions of other decisions and even
      of this one among them. */
  datatype Chain = Chain(store: Store, current: Id)

  datatype Move = Ask(request: Request) | Other(record: Record)

  function Next(c: Chain, m: Move): Chain {
    match m
    case Other(r) => if Appendable(c.store, r) then Chain(c.store + [r], c.current) else c
    case Ask(q) =>
      var after := Apply(c.store, q.origin, q.scope, c.current, q.op, q.now, q.fits);
      if after.None? then c else Chain(after.value, |c.store|)
  }

  function After(c: Chain, moves: seq<Move>): Chain
    decreases |moves|
  {
    if moves == [] then c else After(Next(c, moves[0]), moves[1..])
  }

  /** The record whose words the chain carries: the one made by the last
      operation that was granted and changed words. */
  function LastWorded(c: Chain, worded: Id, moves: seq<Move>): Id
    decreases |moves|
  {
    if moves == [] then worded
    else
      var n := Next(c, moves[0]);
      LastWorded(n, if moves[0].Ask? && moves[0].request.op.Revise? && n != c then n.current else worded, moves[1..])
  }

  /** The current record carries the words of `worded`, and says so. */
  ghost predicate Carries(c: Chain, worded: Id) {
    && c.current < |c.store| && worded < |c.store| && c.store[c.current].kind.Decision?
    && WordsOf(c.store[worded].body) == WordsOf(c.store[c.current].body)
    && var r := RecallOf(c.store, c.current, c.store[c.current].scope).value;
       r.rationaleSource == worded && r.rationaleAuthor == c.store[worded].origin
  }

  lemma ScopePermitsItself(s: Scope)
    ensures s.Permits(s)
  {
  }

  /** What a revision says of the words it carries on. */
  ghost predicate Says(r: Record, s: Store, id: Id, changed: bool, worded: Id)
    requires worded < |s|
  {
    && r.kind.Decision? && LineageOf(r).Some? && r.supersedes == Some(id)
    && var l := LineageOf(r).value;
       if changed then l.rationaleSource.None? && l.rationaleAuthor.Human?
       else l.rationaleSource == Some(worded) && l.rationaleAuthor == s[worded].origin
  }

  lemma RevisionSays(s: Store, id: Id, body: Body, now: int, action: string, changed: bool, worded: Id)
    requires id < |s| && Carries(Chain(s, id), worded)
    ensures Says(Revision(s[id], id, body, now, action, changed), s, id, changed, worded)
  {
    ScopePermitsItself(s[id].scope);
  }

  lemma RevisedCarries(s: Store, origin: Origin, scope: Scope, id: Id, op: Op, now: int, worded: Id)
    requires id < |s| && Carries(Chain(s, id), worded) && RecordOf(s, origin, scope, id, op, now).Some?
    ensures var r := RecordOf(s, origin, scope, id, op, now).value;
            && r.scope == s[id].scope && Says(r, s, id, op.Revise?, worded)
            && (!op.Revise? ==> WordsOf(r.body) == WordsOf(s[id].body))
  {
    var r := RecordOf(s, origin, scope, id, op, now).value;
    RevisionSays(s, id, r.body, now, r.provenance.lineage.action, op.Revise?, worded);
  }

  lemma NextCarries(c: Chain, m: Move, worded: Id)
    requires Carries(c, worded)
    ensures var n := Next(c, m); Carries(n, if m.Ask? && m.request.op.Revise? && n != c then n.current else worded)
  {
    var n := Next(c, m);
    ScopePermitsItself(c.store[c.current].scope);
    if n != c && m.Ask? {
      var q := m.request;
      RevisedCarries(c.store, q.origin, q.scope, c.current, q.op, q.now, worded);
      ScopePermitsItself(n.store[n.current].scope);
      assert n.store[..|c.store|] == c.store;
    }
  }

  lemma {:induction false} ChainCarries(c: Chain, moves: seq<Move>, worded: Id)
    requires Carries(c, worded)
    ensures Carries(After(c, moves), LastWorded(c, worded, moves))
    decreases |moves|
  {
    if moves != [] {
      NextCarries(c, moves[0], worded);
      var n := Next(c, moves[0]);
      ChainCarries(n, moves[1..], if moves[0].Ask? && moves[0].request.op.Revise? && n != c then n.current else worded);
    }
  }

  /** After any transitions, due updates, completion reports, confirmations and
      revisions of a decision without lineage of its own, recall names exactly
      the last record whose words changed and that record's author, and the
      words are still that record's. */
  lemma AuthorshipSurvives(s: Store, root: Id, moves: seq<Move>)
    requires root < |s| && s[root].kind.Decision? && LineageOf(s[root]).None?
    ensures var end := After(Chain(s, root), moves);
            var source := LastWorded(Chain(s, root), root, moves);
            && end.current < |end.store| && source < |end.store|
            && var r := RecallOf(end.store, end.current, end.store[end.current].scope);
               && r.Some? && r.value.rationaleSource == source && r.value.rationaleAuthor == end.store[source].origin
               && WordsOf(r.value.words) == WordsOf(end.store[source].body)
  {
    ScopePermitsItself(s[root].scope);
    ChainCarries(Chain(s, root), moves, root);
    var end := After(Chain(s, root), moves);
    ScopePermitsItself(end.store[end.current].scope);
  }

  // What a revision rests on.

  /** A path along dependencies. */
  predicate DependencyPath(s: Store, p: seq<Id>) {
    p != [] && (forall i | 0 <= i < |p| :: p[i] < |s|) && forall i | 0 < i < |p| :: p[i] in s[p[i - 1]].dependencies
  }

  ghost predicate RestsOn(s: Store, from: Id, to: Id) {
    exists p :: DependencyPath(s, p) && p[0] == from && p[|p| - 1] == to
  }

  lemma PathStays(s: Store, t: Store, p: seq<Id>)
    requires s <= t && DependencyPath(s, p)
    ensures DependencyPath(t, p)
  {
    forall i | 0 < i < |p| ensures p[i] in t[p[i - 1]].dependencies { assert t[p[i - 1]] == s[p[i - 1]]; }
  }

  lemma RestsThrough(s: Store, from: Id, mid: Id, to: Id)
    requires from < |s| && mid in s[from].dependencies && RestsOn(s, mid, to)
    ensures RestsOn(s, from, to)
  {
    var p :| DependencyPath(s, p) && p[0] == mid && p[|p| - 1] == to;
    var q := [from] + p;
    assert forall i | 0 < i < |q| :: q[i] == p[i - 1];
    assert q[1..] == p;
    assert DependencyPath(s, q);
    assert q[0] == from && q[|q| - 1] == to;
  }

  lemma RestsStays(s: Store, t: Store, from: Id, to: Id)
    requires s <= t && RestsOn(s, from, to)
    ensures RestsOn(t, from, to)
  {
    var p :| DependencyPath(s, p) && p[0] == from && p[|p| - 1] == to;
    PathStays(s, t, p);
  }

  lemma RestsOnItself(s: Store, id: Id)
    requires id < |s|
    ensures RestsOn(s, id, id)
  {
    assert DependencyPath(s, [id]);
    assert [id][0] == id && [id][|[id]| - 1] == id;
  }

  lemma RevisionRestsOn(s: Store, r: Record, id: Id, to: Id)
    requires id < |s| && RestsOn(s, id, to) && id in r.dependencies
    ensures RestsOn(s + [r], |s|, to)
  {
    RestsStays(s, s + [r], id, to);
    assert (s + [r])[|s|] == r;
    RestsThrough(s + [r], |s|, id, to);
  }

  lemma GrantedKeepsPredecessor(s: Store, q: Request, id: Id)
    ensures var after := Apply(s, q.origin, q.scope, id, q.op, q.now, q.fits);
            after.Some? ==> exists r :: after.value == s + [r] && id in r.dependencies
  {
    var r := RecordOf(s, q.origin, q.scope, id, q.op, q.now);
    if r.Some? && AppendRevision(s, r.value, q.fits).Some? { assert id in r.value.dependencies; }
  }

  lemma NextRestsOn(c: Chain, m: Move, to: Id)
    requires c.current < |c.store| && RestsOn(c.store, c.current, to)
    ensures var n := Next(c, m); n.current < |n.store| && c.store <= n.store && RestsOn(n.store, n.current, to)
  {
    match m
    case Other(r) =>
      RestsStays(c.store, c.store + [r], c.current, to);
    case Ask(q) =>
      GrantedKeepsPredecessor(c.store, q, c.current);
      var after := Apply(c.store, q.origin, q.scope, c.current, q.op, q.now, q.fits);
      if after.Some? {
        var r :| after.value == c.store + [r] && c.current in r.dependencies;
        RevisionRestsOn(c.store, r, c.current, to);
      }
  }

  /** However often a decision is revised, the current record rests on every
      earlier record of the chain and on all that they rested on, though the
      listed dependencies are cut at 64. */
  lemma {:induction false} ClosureGrows(c: Chain, moves: seq<Move>, to: Id)
    requires c.current < |c.store| && RestsOn(c.store, c.current, to)
    ensures var end := After(c, moves);
            end.current < |end.store| && c.store <= end.store && RestsOn(end.store, end.current, to)
    decreases |moves|
  {
    if moves != [] {
      NextRestsOn(c, moves[0], to);
      ClosureGrows(Next(c, moves[0]), moves[1..], to);
    }
  }

  /** After any operations on a decision, its current record rests on the first
      one and on everything that one rested on. */
  lemma GroundsAreKept(s: Store, root: Id, moves: seq<Move>, ground: Id)
    requires root < |s|
    ensures var end := After(Chain(s, root), moves);
            RestsOn(end.store, end.current, root)
              && (RestsOn(s, root, ground) ==> RestsOn(end.store, end.current, ground))
  {
    RestsOnItself(s, root);
    ClosureGrows(Chain(s, root), moves, root);
    if RestsOn(s, root, ground) { ClosureGrows(Chain(s, root), moves, ground); }
  }

  // Links stay valid along a chain.

  /** A record that is within the bound of dependencies has revisions within it,
      which list it, and the receipt of a confirmation. */
  lemma RecordLists(s: Store, q: Request, id: Id)
    requires id < |s| && |s[id].dependencies| <= MAX_DEPENDENCIES
    ensures var r := RecordOf(s, q.origin, q.scope, id, q.op, q.now);
            r.Some? ==>
              && r.value.supersedes == Some(id) && id in r.value.dependencies
              && (q.op.ConfirmExecution? ==> q.op.receipt in r.value.dependencies)
              && |r.value.dependencies| <= MAX_DEPENDENCIES
  {
  }

  /** A revision lists only its predecessor, what that listed, and a receipt of
      its own scope. */
  lemma RecordCarries(s: Store, q: Request, id: Id)
    requires id < |s|
    ensures var r := RecordOf(s, q.origin, q.scope, id, q.op, q.now);
            r.Some? ==>
              && r.value.scope == s[id].scope
              && forall d | d in r.value.dependencies ::
                   d in s[id].dependencies || (d < |s| && s[d].scope == s[id].scope)
  {
    CarriedMembers(s[id], id);
  }

  lemma CarriedMembers(r: Record, id: Id)
    ensures forall d | d in Carried(r, id) :: d in r.dependencies || d == id
  {
  }

  /** Links that come from a well-linked record, or stay in its scope, are valid
      for its revision. */
  lemma CarriedLinksAreValid(s: Store, id: Id, r: Record)
    requires WellLinked(s) && id < |s| && r.scope == s[id].scope && r.supersedes == Some(id)
    requires forall d | d in r.dependencies :: d in s[id].dependencies || (d < |s| && s[d].scope == s[id].scope)
    ensures ValidLinks(s, r) && |s[id].dependencies| <= MAX_DEPENDENCIES
  {
    assert Appendable(s[..id], s[id]);
    ScopePermitsItself(r.scope);
  }

  lemma RecordIsLinked(s: Store, q: Request, id: Id)
    requires WellLinked(s) && id < |s|
    ensures var r := RecordOf(s, q.origin, q.scope, id, q.op, q.now);
            r.Some? ==>
              && r.value.supersedes == Some(id) && id in r.value.dependencies
              && (q.op.ConfirmExecution? ==> q.op.receipt in r.value.dependencies)
              && |r.value.dependencies| <= MAX_DEPENDENCIES && ValidLinks(s, r.value)
  {
    assert Appendable(s[..id], s[id]);
    var r := RecordOf(s, q.origin, q.scope, id, q.op, q.now);
    RecordLists(s, q, id);
    RecordCarries(s, q, id);
    if r.Some? { CarriedLinksAreValid(s, id, r.value); }
  }

  lemma NextKeepsLinks(c: Chain, m: Move)
    requires WellLinked(c.store) && c.current < |c.store|
    ensures var n := Next(c, m); WellLinked(n.store) && n.current < |n.store| && c.store <= n.store
  {
    match m
    case Other(r) => if Appendable(c.store, r) { AppendKeepsLinks(c.store, r); }
    case Ask(q) =>
      var r := RecordOf(c.store, q.origin, q.scope, c.current, q.op, q.now);
      if r.Some? && AppendRevision(c.store, r.value, q.fits).Some? { AppendKeepsLinks(c.store, r.value); }
  }

  lemma {:induction false} LinksAreKept(c: Chain, moves: seq<Move>)
    requires WellLinked(c.store) && c.current < |c.store|
    ensures var end := After(c, moves);
            WellLinked(end.store) && end.current < |end.store| && c.store <= end.store
    decreases |moves|
  {
    if moves != [] {
      NextKeepsLinks(c, moves[0]);
      LinksAreKept(Next(c, moves[0]), moves[1..]);
    }
  }

  /** However long a chain has grown, the next revision names its predecessor
      as a dependency within the bound, and a confirmation its receipt. */
  lemma PredecessorIsKept(c: Chain, moves: seq<Move>, q: Request)
    requires WellLinked(c.store) && c.current < |c.store|
    ensures var end := After(c, moves);
            var r := RecordOf(end.store, q.origin, q.scope, end.current, q.op, q.now);
            r.Some? ==>
              && end.current in r.value.dependencies && |r.value.dependencies| <= MAX_DEPENDENCIES
              && (q.op.ConfirmExecution? ==> q.op.receipt in r.value.dependencies)
  {
    LinksAreKept(c, moves);
    RecordIsLinked(After(c, moves).store, q, After(c, moves).current);
  }

  lemma GrantedIfCurrent(s: Store, q: Request, id: Id)
    requires WellLinked(s) && id < |s|
    ensures var r := RecordOf(s, q.origin, q.scope, id, q.op, q.now);
            var after := Apply(s, q.origin, q.scope, id, q.op, q.now, q.fits);
            && (after.Some? <==> r.Some? && q.fits && !Replaced(s, id))
            && (after.Some? ==> after.value == s + [r.value])
  {
    RecordIsLinked(s, q, id);
  }

  /** After any chain in a well-linked store, an operation that has a record to
      append is granted exactly when its predecessor is still current and its
      texts fit. */
  lemma GrantedExactlyWhenCurrent(c: Chain, moves: seq<Move>, q: Request)
    requires WellLinked(c.store) && c.current < |c.store|
    ensures var end := After(c, moves);
            var r := RecordOf(end.store, q.origin, q.scope, end.current, q.op, q.now);
            var after := Apply(end.store, q.origin, q.scope, end.current, q.op, q.now, q.fits);
            && (after.Some? <==> r.Some? && q.fits && !Replaced(end.store, end.current))
            && (after.Some? ==> after.value == end.store + [r.value])
  {
    LinksAreKept(c, moves);
    GrantedIfCurrent(After(c, moves).store, q, After(c, moves).current);
  }

  // What becomes of a commitment.

  /** What a person may still do to a confirmed commitment: report it, or give
      another receipt for it. */
  predicate Reopens(s: Store, scope: Scope, id: Id, op: Op, confirmedBy: Id) {
    || (op.ReportCompletion? && BoundedBody(op.statement))
    || (op.ConfirmExecution? && ReceiptFor(s, scope, id, op.receipt) && op.receipt != confirmedBy)
  }

  predicate ConfirmedBy(s: Store, id: Id, receipt: Id) {
    id < |s| && s[id].body.Committed? && s[id].body.commitment.completion == ReceiptConfirmed(receipt)
  }

  lemma ChangedOnlyIfReopened(s: Store, q: Request, id: Id, receipt: Id)
    requires WellLinked(s) && ConfirmedBy(s, id, receipt)
    ensures var after := Apply(s, q.origin, q.scope, id, q.op, q.now, q.fits);
            after.Some? && after.value[|s|].body != s[id].body <==>
              && q.origin.Human? && DecisionPredecessor(s, q.scope, id).Some? && !Replaced(s, id) && q.fits
              && Reopens(s, q.scope, id, q.op, receipt)
  {
    GrantedIfCurrent(s, q, id);
  }

  /** After any chain, a receipt-confirmed commitment is changed by exactly a
      granted completion report, or a confirmation by another receipt, of the
      current record. */
  lemma ConfirmationIsNotFinal(c: Chain, moves: seq<Move>, q: Request, receipt: Id)
    requires WellLinked(c.store) && c.current < |c.store|
    requires ConfirmedBy(After(c, moves).store, After(c, moves).current, receipt)
    ensures var end := After(c, moves);
            Next(end, Ask(q)) != end && Next(end, Ask(q)).store[|end.store|].body != end.store[end.current].body <==>
              && q.origin.Human? && DecisionPredecessor(end.store, q.scope, end.current).Some?
              && !Replaced(end.store, end.current) && q.fits
              && Reopens(end.store, q.scope, end.current, q.op, receipt)
  {
    LinksAreKept(c, moves);
    ChangedOnlyIfReopened(After(c, moves).store, q, After(c, moves).current, receipt);
  }

  predicate Done(c: Chain) {
    c.current < |c.store| && c.store[c.current].body.Committed? && !c.store[c.current].body.commitment.completion.Open?
  }

  /** No operation reopens a commitment: once reported or confirmed it is one or
      the other for ever, and can no longer be scheduled. */
  lemma {:induction false} DoneStaysDone(c: Chain, moves: seq<Move>)
    requires Done(c)
    ensures Done(After(c, moves))
    ensures var end := After(c, moves);
            forall origin, scope, dueAt, now ::
                RecordOf(end.store, origin, scope, end.current, Schedule(dueAt), now).None?
    decreases |moves|
  {
    if moves != [] {
      NextStaysDone(c, moves[0]);
      DoneStaysDone(Next(c, moves[0]), moves[1..]);
    }
  }

  lemma RevisionStaysDone(s: Store, q: Request, id: Id)
    requires Done(Chain(s, id))
    ensures var r := RecordOf(s, q.origin, q.scope, id, q.op, q.now);
            r.Some? ==> r.value.body.Committed? && !r.value.body.commitment.completion.Open?
  {
  }

  lemma NextStaysDone(c: Chain, m: Move)
    requires Done(c)
    ensures Done(Next(c, m))
  {
    if m.Ask? { RevisionStaysDone(c.store, m.request, c.current); }
  }

  const NOWHERE := Scope(None, None, None, None)
  const OPEN_COMMITMENT := Record(
    Decision, Worker, NOWHERE, Committed(Commitment("measure", "before release", None, Open)), Note("proposed"), 0,
      None, [], Some(Proposed), false)
  const ITS_RECEIPT :=
    Record(Finding, System, NOWHERE, Receipt(0, "measured", true), Note("native"), 1, None, [], None, false)

  lemma ItsReceiptConfirms()
    ensures var s := [OPEN_COMMITMENT, ITS_RECEIPT];
            var confirmed := Apply(s, Human, NOWHERE, 0, ConfirmExecution(1), 2, true);
            && WellLinked(s) && confirmed.Some? && WellLinked(confirmed.value) && |confirmed.value| == 3
            && !Replaced(confirmed.value, 2)
            && DecisionPredecessor(confirmed.value, NOWHERE, 2).Some?
            && confirmed.value[2].body == Committed(OPEN_COMMITMENT.body.commitment.(completion := ReceiptConfirmed(1)))
  {
    var s := [OPEN_COMMITMENT, ITS_RECEIPT];
    assert s[..0] == [] && s[..1] == [OPEN_COMMITMENT];
    assert WellLinked(s);
    assert !Space("measured"[0]);
    GrantedIfCurrent(s, Request(Human, NOWHERE, ConfirmExecution(1), 2, true), 0);
    AppendKeepsLinks(s, RecordOf(s, Human, NOWHERE, 0, ConfirmExecution(1), 2).value);
  }

  /** A commitment that is confirmed by its receipt and then only reported ends
      as reported, without its confirmation. */
  lemma ConfirmedThenReported()
    ensures var confirmed := Apply([OPEN_COMMITMENT, ITS_RECEIPT], Human, NOWHERE, 0, ConfirmExecution(1), 2, true);
            && confirmed.Some? && |confirmed.value| == 3
            && confirmed.value[2].body == Committed(OPEN_COMMITMENT.body.commitment.(completion := ReceiptConfirmed(1)))
            && var reported := Apply(confirmed.value, Human, NOWHERE, 2, ReportCompletion("done"), 3, true);
               && reported.Some? && |reported.value| == 4
               && reported.value[3].body
                    == Committed(OPEN_COMMITMENT.body.commitment.(completion := HumanReported("done")))
  {
    ItsReceiptConfirms();
    assert !Space("done"[0]);
    var t := Apply([OPEN_COMMITMENT, ITS_RECEIPT], Human, NOWHERE, 0, ConfirmExecution(1), 2, true).value;
    GrantedIfCurrent(t, Request(Human, NOWHERE, ReportCompletion("done"), 3, true), 2);
  }

  // The store in place.

  class History {
    var records: Store

    /** One explicit human operation on a current decision: it appends exactly
        its revision, or changes nothing. */
    method Perform(origin: Origin, scope: Scope, id: Id, op: Op, now: int, fits: bool) returns (made: Option<Id>)
      requires WellLinked(records)
      modifies this
      ensures WellLinked(records)
      ensures var after := Apply(old(records), origin, scope, id, op, now, fits);
              if after.Some? then records == after.value && made == Some(|old(records)|)
              else records == old(records) && made == None
    {
      var next := RecordOf(records, origin, scope, id, op, now);
      if next.None? || !fits || !Revisable(records, next.value) {
        return None;
      }
      AppendKeepsLinks(records, next.value);
      made := Some(|records|);
      records := records + [next.value];
    }
  }
}
