/** The memory store: an append-only list of typed records, each with its
    author, its provenance and its links to earlier records. A record's id is
    its position. */
module Memory {
  import opened Wrappers

  type Id = nat

  const MAX_DEPENDENCIES: nat := 64

  datatype Origin = Human | Worker | System

  datatype Kind =
    | Draft | UserInstruction | InferredPreference | Proposal | Decision | Finding | Briefing
    | GraspInteraction | Correction

  datatype DecisionState = Proposed | Accepted | Rejected | Deferred | Unresolved | Superseded

  datatype Scope = Scope(node: Option<string>, project: Option<string>, provider: Option<string>,
      conversation: Option<string>) {
    /** Material may be narrowed to a more specific scope, never broadened. */
    predicate Permits(destination: Scope) {
      && (node.None? || node == destination.node) && (project.None? || project == destination.project)
      && (provider.None? || provider == destination.provider)
      && (conversation.None? || conversation == destination.conversation)
    }
  }

  /** What a scope demands of a destination: each part it names, and its value. */
  datatype Part = Node | Project | Provider | Conversation

  predicate Demands(s: Scope, part: Part, value: string) {
    match part
    case Node => s.node == Some(value)
    case Project => s.project == Some(value)
    case Provider => s.provider == Some(value)
    case Conversation => s.conversation == Some(value)
  }

  /** A destination is permitted exactly if it meets every demand: material is
      narrowed to what is more specific and never broadened. */
  lemma PermittedExactlyIfNarrower(s: Scope, destination: Scope)
    ensures s.Permits(destination) <==>
            forall part, value | Demands(s, part, value) :: Demands(destination, part, value)
  {
    if !s.Permits(destination) {
      var part := if s.node.Some? && s.node != destination.node then Node
                  else if s.project.Some? && s.project != destination.project then Project
                  else if s.provider.Some? && s.provider != destination.provider then Provider
                  else Conversation;
      var value := match part
        case Node => s.node.value
        case Project => s.project.value
        case Provider => s.provider.value
        case Conversation => s.conversation.value;
      assert Demands(s, part, value) && !Demands(destination, part, value);
    }
  }

  datatype Completion = Open | HumanReported(statement: string) | ReceiptConfirmed(receipt: Id)

  datatype Commitment = Commitment(commitment: string, condition: string, dueAt: Option<int>, completion: Completion)

  /** A commitment is stored as structured text, and so is a native receipt. */
  datatype Body = Words(text: string) | Committed(commitment: Commitment)
      | Receipt(commitmentId: Id, operation: string, succeeded: bool)

  /** What a revision says of itself, as structured text. */
  datatype Lineage = Lineage(
    action: string, actor: Origin, source: Id, sourceOrigin: Origin,
    rationaleAuthor: Origin, rationaleSource: Option<Id>, semanticKind: Option<Kind>)

  datatype Provenance = Note(text: string) | Revised(lineage: Lineage)

  datatype Record = Record(
    kind: Kind, origin: Origin, scope: Scope, body: Body, provenance: Provenance, timestamp: int,
    supersedes: Option<Id>, dependencies: seq<Id>, state: Option<DecisionState>, protectedPolicy: bool)

  type Store = seq<Record>

  predicate Replaced(s: Store, id: Id) { exists i | 0 <= i < |s| :: s[i].supersedes == Some(id) }

  predicate Active(s: Store, id: Id) { id < |s| && !Replaced(s, id) }

  /** Only people instruct, protect, supersede and decide. */
  predicate ValidInput(r: Record) {
    && |r.dependencies| <= MAX_DEPENDENCIES
    && (r.origin.Human? ||
        (!r.kind.UserInstruction? && !r.protectedPolicy && r.supersedes.None?
          && (r.state.None? || r.state == Some(Proposed))))
    && (r.kind.Correction? ==> r.dependencies != [])
  }

  /** Links go to earlier records, and never broaden a scope. */
  predicate ValidLinks(s: Store, r: Record) {
    && (forall d | d in r.dependencies :: d < |s| && s[d].scope.Permits(r.scope))
    && (r.supersedes.Some? ==> r.supersedes.value < |s| && s[r.supersedes.value].scope == r.scope)
  }

  predicate Appendable(s: Store, r: Record) { ValidInput(r) && ValidLinks(s, r) }

  /** A revision keeps its exact predecessor, which must still be the current
      record, among its dependencies. */
  predicate Revisable(s: Store, r: Record) {
    r.origin.Human? && r.supersedes.Some? && r.supersedes.value in r.dependencies && !Replaced(s, r.supersedes.value)
      && Appendable(s, r)
  }

  /** `fits`: the record's texts are within their bounds. */
  function Append(s: Store, r: Record, fits: bool): Option<Store> {
    if fits && Appendable(s, r) then Some(s + [r]) else None
  }

  function AppendRevision(s: Store, r: Record, fits: bool): Option<Store> {
    if fits && Revisable(s, r) then Some(s + [r]) else None
  }

  /** Every record was appendable to those before it. */
  ghost predicate WellLinked(s: Store) { forall i | 0 <= i < |s| :: Appendable(s[..i], s[i]) }

  lemma AppendKeepsLinks(s: Store, r: Record)
    requires WellLinked(s) && Appendable(s, r)
    ensures WellLinked(s + [r])
  {
    forall i | 0 <= i < |s + [r]| ensures Appendable((s + [r])[..i], (s + [r])[i]) {
      assert (s + [r])[..i] == if i < |s| then s[..i] else s;
    }
  }

  /** A record's lineage, if it is a person's revision of the record it
      supersedes. */
  function LineageOf(r: Record): Option<Lineage> {
    if r.provenance.Revised? && r.origin.Human? && r.provenance.lineage.actor.Human?
      && r.supersedes == Some(r.provenance.lineage.source)
    then Some(r.provenance.lineage)
    else None
  }

  // What a store holds.

  /** What the store holds after asking it to append each of these in turn. */
  function Appended(s: Store, asked: seq<(Record, bool)>): Store
    decreases |asked|
  {
    if asked == [] then s
    else
      var next := Append(s, asked[0].0, asked[0].1);
      Appended(if next.Some? then next.value else s, asked[1..])
  }

  lemma {:induction false} AppendedIsLinked(s: Store, asked: seq<(Record, bool)>)
    requires WellLinked(s)
    ensures WellLinked(Appended(s, asked))
    decreases |asked|
  {
    if asked != [] {
      if asked[0].1 && Appendable(s, asked[0].0) { AppendKeepsLinks(s, asked[0].0); }
      var next := Append(s, asked[0].0, asked[0].1);
      AppendedIsLinked(if next.Some? then next.value else s, asked[1..]);
    }
  }

  /** Whatever a store was asked to append, by whomever: only a person's records
      instruct, protect, supersede or decide more than a proposal; every link goes
      to an earlier record, at most 64 from each, from a scope that permits it and,
      to what is superseded, in the same scope; and a correction rests on
      something. */
  lemma AuthorityIsHuman(asked: seq<(Record, bool)>, i: Id)
    ensures var s := Appended([], asked);
            i < |s| ==>
              && (!s[i].origin.Human? ==>
                    && !s[i].kind.UserInstruction? && !s[i].protectedPolicy && s[i].supersedes.None?
                    && (s[i].state.Some? ==> s[i].state.value.Proposed?))
              && |s[i].dependencies| <= 64 && (s[i].kind.Correction? ==> |s[i].dependencies| > 0)
              && (forall d | d in s[i].dependencies :: d < i && s[d].scope.Permits(s[i].scope))
              && (s[i].supersedes.Some? ==> s[i].supersedes.value < i && s[s[i].supersedes.value].scope == s[i].scope)
  {
    AppendedIsLinked([], asked);
    var s := Appended([], asked);
    if i < |s| { assert Appendable(s[..i], s[i]); }
  }

  /** Nothing else is refused: a record is appended, after all that is stored,
      exactly if its texts fit and it claims no more than that. */
  lemma AppendedExactlyWhen(s: Store, r: Record, fits: bool)
    ensures var after := Append(s, r, fits);
            && (after.Some? <==>
                  && fits && |r.dependencies| <= 64 && (r.kind.Correction? ==> |r.dependencies| > 0)
                  && (r.origin.Human?
                      || (!r.kind.UserInstruction? && !r.protectedPolicy && r.supersedes.None?
                          && (r.state.Some? ==> r.state.value.Proposed?)))
                  && (forall d | d in r.dependencies :: d < |s| && s[d].scope.Permits(r.scope))
                  && (r.supersedes.Some? ==> r.supersedes.value < |s| && s[r.supersedes.value].scope == r.scope))
            && (after.Some? ==> after.value == s + [r])
  {
  }

  /** A revision is a person's, lists what it replaces, and is the only one to
      replace it: it is refused exactly if it is not appendable so, or another
      record got there first. */
  lemma RevisedExactlyWhen(s: Store, r: Record, fits: bool)
    ensures var after := AppendRevision(s, r, fits);
            && (after.Some? <==>
                  && Append(s, r, fits).Some? && r.origin.Human? && r.supersedes.Some?
                  && r.supersedes.value in r.dependencies
                  && forall i | 0 <= i < |s| :: s[i].supersedes != r.supersedes)
            && (after.Some? ==>
                  && after == Append(s, r, fits)
                  && forall i | 0 <= i < |after.value| :: after.value[i].supersedes == r.supersedes <==> i == |s|)
  {
  }
}
