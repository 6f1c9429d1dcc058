/** Corrections of saved wording: what kind of record a correction stands for,
    however long its chain. */
module Lineage {
  import opened Wrappers
  import opened Memory
  import opened Decisions

  const MAX_STEPS: nat := 129
  const ANCESTRY_BUDGET: nat := 128

  /** The first record of a chain that is not itself a correction of another. */
  function Root(s: Store, id: Id): (root: Id)
    requires WellLinked(s) && id < |s|
    ensures root <= id
    ensures s[root].kind.Correction? ==> s[root].supersedes.None?
    decreases id
  {
    if !s[id].kind.Correction? || s[id].supersedes.None? then id
    else
      assert Appendable(s[..id], s[id]);
      Root(s, s[id].supersedes.value)
  }

  /** What a correction records of its own chain. */
  function Recorded(r: Record): Option<Kind> {
    if LineageOf(r).Some? then LineageOf(r).value.semanticKind else None
  }

  /** The walk up a chain, at most `steps` records and `budget` lookups. */
  function Walk(s: Store, scope: Scope, id: Id, steps: nat, budget: nat): (Option<Kind>, nat)
    decreases steps
  {
    if steps == 0 || id >= |s| || s[id].scope != scope then (None, budget)
    else if !s[id].kind.Correction?
      then (if !s[id].kind.UserInstruction? || s[id].origin.Human? then Some(s[id].kind) else None, budget)
    else if !s[id].origin.Human? then (None, budget)
    else if Recorded(s[id]).Some? then (Recorded(s[id]), budget)
    else if s[id].supersedes.None? || budget == 0 then (None, budget)
    else Walk(s, scope, s[id].supersedes.value, steps - 1, budget - 1)
  }

  function SemanticKind(s: Store, id: Id, budget: nat): (Option<Kind>, nat)
    requires id < |s|
  {
    Walk(s, s[id].scope, id, MAX_STEPS, budget)
  }

  method FindSemanticKind(s: Store, id: Id, budget: nat) returns (kind: Option<Kind>, left: nat)
    requires id < |s|
    ensures (kind, left) == SemanticKind(s, id, budget)
  {
    var current: Id := id;
    left := budget;
    var steps: nat := MAX_STEPS;
    while steps > 0
      invariant current < |s|
      invariant Walk(s, s[id].scope, current, steps, left) == SemanticKind(s, id, budget)
    {
      var r := s[current];
      if r.scope != s[id].scope {
        return None, left;
      }
      if !r.kind.Correction? {
        return if !r.kind.UserInstruction? || r.origin.Human? then Some(r.kind) else None, left;
      }
      if !r.origin.Human? {
        return None, left;
      }
      if Recorded(r).Some? {
        return Recorded(r), left;
      }
      if r.supersedes.None? || left == 0 {
        return None, left;
      }
      left := left - 1;
      if r.supersedes.value >= |s| {
        return None, left;
      }
      current, steps := r.supersedes.value, steps - 1;
    }
    kind := None;
  }

  /** The same question asked of the records supplied to a briefing. */
  function WalkSupplied(s: Store, scope: Scope, id: Id, supplied: seq<Id>, steps: nat): bool
    decreases steps
  {
    if steps == 0 || id >= |s| || !s[id].origin.Human? || s[id].scope != scope then false
    else if s[id].kind.UserInstruction? then true
    else if !s[id].kind.Correction? then false
    else if Recorded(s[id]).Some? then Recorded(s[id]) == Some(UserInstruction)
    else if s[id].supersedes.None? || s[id].supersedes.value !in supplied then false
    else WalkSupplied(s, scope, s[id].supersedes.value, supplied, steps - 1)
  }

  function CorrectsInstruction(s: Store, id: Id, supplied: seq<Id>): bool
    requires id < |s|
  {
    WalkSupplied(s, s[id].scope, id, supplied, |supplied|)
  }

  /** An explicit human correction: an instruction's becomes a correction, any
      other record's keeps its kind, and a decision's is refused. */
  function CorrectionOf(s: Store, origin: Origin, scope: Scope, id: Id, text: string, now: int): Option<Record> {
    var found := Predecessor(s, scope, id);
    if !origin.Human? || !BoundedBody(text) || found.None? || found.value.kind.Decision? then None
    else
      var r := Revision(found.value, id, Words(text), now, "explicit human correction of saved wording", true);
      var kind := if r.kind.UserInstruction? then Correction else r.kind;
      Some(r.(kind := kind,
        provenance := Revised(r.provenance.lineage.(semanticKind := SemanticKind(s, id, ANCESTRY_BUDGET).0))))
  }

  // Any store.

  /** `Add` appends any record; a correction made before corrections recorded
      their kind is one whose provenance names none. */
  datatype Event = Add(record: Record)
      | Correct(origin: Origin, scope: Scope, id: Id, text: string, now: int, fits: bool)

  predicate Legacy(r: Record) { r.kind.Correction? && r.supersedes.Some? && Recorded(r).None? }

  predicate Allowed(e: Event, legacy: bool) {
    e.Add? && e.record.kind.Correction? ==> legacy && (e.record.supersedes.None? || Legacy(e.record))
  }

  function Step(s: Store, e: Event): Store {
    match e
    case Add(r) => if Appendable(s, r) then s + [r] else s
    case Correct(origin, scope, id, text, now, fits) =>
      var r := CorrectionOf(s, origin, scope, id, text, now);
      if r.Some? && AppendRevision(s, r.value, fits).Some? then s + [r.value] else s
  }

  function Run(s: Store, events: seq<Event>): Store
    decreases |events|
  {
    if events == [] then s else Run(Step(s, events[0]), events[1..])
  }

  /** What a correction records is its root's kind; without legacy records every
      correction of another record says it. */
  ghost predicate Inv(s: Store, legacy: bool) {
    && WellLinked(s)
    && (forall i | 0 <= i < |s| && s[i].kind.Correction? && Recorded(s[i]).Some? ::
          Recorded(s[i]).value == s[Root(s, i)].kind && !Recorded(s[i]).value.Correction?)
    && (!legacy ==> forall i | 0 <= i < |s| && s[i].kind.Correction? :: s[i].supersedes.Some? && Recorded(s[i]).Some?)
  }

  lemma InstructionsAreHuman(s: Store, i: Id)
    requires WellLinked(s) && i < |s|
    ensures s[i].kind.UserInstruction? || s[i].supersedes.Some? ==> s[i].origin.Human?
    ensures s[i].supersedes.Some? ==> s[i].supersedes.value < i && s[s[i].supersedes.value].scope == s[i].scope
  {
    assert Appendable(s[..i], s[i]);
  }

  lemma {:induction false} RootStays(s: Store, t: Store, i: Id)
    requires WellLinked(s) && WellLinked(t) && s <= t && i < |s|
    ensures Root(t, i) == Root(s, i)
    decreases i
  {
    assert t[i] == s[i];
    if s[i].kind.Correction? && s[i].supersedes.Some? {
      InstructionsAreHuman(s, i);
      RootStays(s, t, s[i].supersedes.value);
    }
  }

  /** A walk only ever finds the root's kind. */
  lemma {:induction false} WalkIsSound(s: Store, legacy: bool, scope: Scope, id: Id, steps: nat, budget: nat)
    requires Inv(s, legacy) && id < |s|
    ensures var k := Walk(s, scope, id, steps, budget).0;
            k.Some? ==> k.value == s[Root(s, id)].kind && !k.value.Correction?
    decreases steps
  {
    if steps > 0 && s[id].kind.Correction? && s[id].origin.Human? && Recorded(s[id]).None? && s[id].supersedes.Some?
      && budget > 0 {
      InstructionsAreHuman(s, id);
      WalkIsSound(s, legacy, scope, s[id].supersedes.value, steps - 1, budget - 1);
    }
  }

  lemma {:induction false} SuppliedWalkIsSound(s: Store, legacy: bool, scope: Scope, id: Id, supplied: seq<Id>,
      steps: nat)
    requires Inv(s, legacy) && id < |s| && WalkSupplied(s, scope, id, supplied, steps)
    ensures s[Root(s, id)].kind.UserInstruction?
    decreases steps
  {
    if s[id].kind.Correction? && Recorded(s[id]).None? {
      InstructionsAreHuman(s, id);
      SuppliedWalkIsSound(s, legacy, scope, s[id].supersedes.value, supplied, steps - 1);
    }
  }

  lemma AppendKeeps(s: Store, r: Record, legacy: bool)
    requires Inv(s, legacy) && Appendable(s, r)
    requires r.kind.Correction? && Recorded(r).Some? ==>
             r.supersedes.Some? && Recorded(r).value == s[Root(s, r.supersedes.value)].kind
               && !Recorded(r).value.Correction?
    requires r.kind.Correction? && !legacy ==> Recorded(r).Some?
    ensures Inv(s + [r], legacy)
  {
    var t := s + [r];
    AppendKeepsLinks(s, r);
    forall i | 0 <= i < |s|
      ensures Root(t, i) == Root(s, i) && t[i] == s[i] && s[Root(s, i)] == t[Root(t, i)]
    {
      RootStays(s, t, i);
    }
    if r.kind.Correction? && Recorded(r).Some? {
      assert t[|s|] == r && Root(t, |s|) == Root(t, r.supersedes.value);
    }
  }

  /** A new correction records what the walk found of its predecessor. */
  lemma CorrectionKeeps(s: Store, legacy: bool, origin: Origin, scope: Scope, id: Id, text: string, now: int)
    requires Inv(s, legacy)
    requires var r := CorrectionOf(s, origin, scope, id, text, now); r.Some? && Appendable(s, r.value)
    ensures Inv(s + [CorrectionOf(s, origin, scope, id, text, now).value], legacy)
  {
    var r := CorrectionOf(s, origin, scope, id, text, now).value;
    WalkIsSound(s, legacy, s[id].scope, id, MAX_STEPS, ANCESTRY_BUDGET);
    InstructionsAreHuman(s, id);
    assert Recorded(r) == SemanticKind(s, id, ANCESTRY_BUDGET).0;
    AppendKeeps(s, r, legacy);
  }

  lemma {:induction false} RunKeeps(s: Store, events: seq<Event>, legacy: bool)
    requires Inv(s, legacy) && forall i | 0 <= i < |events| :: Allowed(events[i], legacy)
    ensures Inv(Run(s, events), legacy)
    decreases |events|
  {
    if events != [] {
      var e := events[0];
      if e.Add? {
        if Appendable(s, e.record) { AppendKeeps(s, e.record, legacy); }
      } else {
        var r := CorrectionOf(s, e.origin, e.scope, e.id, e.text, e.now);
        if r.Some? && AppendRevision(s, r.value, e.fits).Some? {
          CorrectionKeeps(s, legacy, e.origin, e.scope, e.id, e.text, e.now);
        }
      }
      RunKeeps(Step(s, e), events[1..], legacy);
    }
  }

  /** In a store whose corrections were all made by `correct`, a correction of
      any length is an instruction exactly when its root is a person's
      instruction, and both classifiers say so, with any lookups left and
      whatever records are supplied. */
  lemma CorrectionsKeepTheirRoot(events: seq<Event>, id: Id, budget: nat, supplied: seq<Id>)
    requires forall i | 0 <= i < |events| :: Allowed(events[i], false)
    requires supplied != []
    ensures var s := Run([], events);
            id < |s| && s[id].kind.Correction? ==>
              && WellLinked(s)
              && SemanticKind(s, id, budget) == (Some(s[Root(s, id)].kind), budget)
              && (CorrectsInstruction(s, id, supplied) <==>
                   s[Root(s, id)].kind.UserInstruction? && s[Root(s, id)].origin.Human?)
  {
    RunKeeps([], events, false);
    var s := Run([], events);
    if id < |s| && s[id].kind.Correction? {
      InstructionsAreHuman(s, id);
      InstructionsAreHuman(s, Root(s, id));
    }
  }

  /** Even with corrections from before kinds were recorded, neither classifier
      ever promotes: what it calls an instruction has a person's instruction as
      its root. */
  lemma NothingIsPromoted(events: seq<Event>, id: Id, budget: nat, supplied: seq<Id>)
    requires forall i | 0 <= i < |events| :: Allowed(events[i], true)
    ensures var s := Run([], events);
            id < |s|
              && (SemanticKind(s, id, budget).0 == Some(UserInstruction) || CorrectsInstruction(s, id, supplied)) ==>
              WellLinked(s) && s[Root(s, id)].kind.UserInstruction? && s[Root(s, id)].origin.Human?
  {
    RunKeeps([], events, true);
    var s := Run([], events);
    if id < |s| {
      InstructionsAreHuman(s, Root(s, id));
      WalkIsSound(s, true, s[id].scope, id, MAX_STEPS, budget);
      if CorrectsInstruction(s, id, supplied) { SuppliedWalkIsSound(s, true, s[id].scope, id, supplied, |supplied|); }
    }
  }

  /** How many records up a chain its kind is known, if it ever is. */
  function Distance(s: Store, id: Id): Option<nat>
    requires WellLinked(s) && id < |s|
    decreases id
  {
    if !s[id].kind.Correction? then Some(0)
    else if !s[id].origin.Human? then None
    else if Recorded(s[id]).Some? then Some(0)
    else if s[id].supersedes.None? then None
    else
      InstructionsAreHuman(s, id);
      var rest := Distance(s, s[id].supersedes.value);
      if rest.None? then None else Some(rest.value + 1)
  }

  lemma {:induction false} WalkReaches(s: Store, legacy: bool, scope: Scope, id: Id, steps: nat, budget: nat)
    requires Inv(s, legacy) && id < |s| && s[id].scope == scope
    ensures var d := Distance(s, id);
            Walk(s, scope, id, steps, budget).0.Some? <==> d.Some? && d.value < steps && d.value <= budget
    decreases steps
  {
    InstructionsAreHuman(s, id);
    if steps > 0 && s[id].kind.Correction? && s[id].origin.Human? && Recorded(s[id]).None? && s[id].supersedes.Some?
      && budget > 0 {
      WalkReaches(s, legacy, scope, s[id].supersedes.value, steps - 1, budget - 1);
    }
  }

  /** An old correction's kind is found exactly when the record that tells it is
      within 128 ancestors and within the lookups left. */
  lemma LegacyIsFoundWhenNear(events: seq<Event>, id: Id, budget: nat)
    requires forall i | 0 <= i < |events| :: Allowed(events[i], true)
    ensures var s := Run([], events);
            id < |s| ==>
              && WellLinked(s)
              && (SemanticKind(s, id, budget).0.Some? <==>
                  Distance(s, id).Some? && Distance(s, id).value <= 128 && Distance(s, id).value <= budget)
  {
    RunKeeps([], events, true);
    var s := Run([], events);
    if id < |s| { WalkReaches(s, true, s[id].scope, id, MAX_STEPS, budget); }
  }

  /** That many records up the chain are among those supplied. */
  predicate Supplied(s: Store, id: Id, up: nat, supplied: seq<Id>)
    requires id < |s|
    decreases up
  {
    up == 0
    || (&& s[id].supersedes.Some? && s[id].supersedes.value < |s| && s[id].supersedes.value in supplied
        && Supplied(s, s[id].supersedes.value, up - 1, supplied))
  }

  lemma {:induction false} SuppliedWalkReaches(s: Store, legacy: bool, scope: Scope, id: Id, supplied: seq<Id>,
      steps: nat)
    requires Inv(s, legacy) && id < |s| && s[id].scope == scope
    ensures var d := Distance(s, id);
            WalkSupplied(s, scope, id, supplied, steps) <==>
              d.Some? && d.value < steps && Supplied(s, id, d.value, supplied) && s[Root(s, id)].kind.UserInstruction?
    decreases steps
  {
    InstructionsAreHuman(s, id);
    if steps > 0 && s[id].kind.Correction? && s[id].origin.Human? && Recorded(s[id]).None? && s[id].supersedes.Some? {
      SuppliedWalkReaches(s, legacy, scope, s[id].supersedes.value, supplied, steps - 1);
    }
  }

  /** A briefing calls an old correction an instruction exactly when its root is
      one and every record up to the one that tells it is supplied, of which there
      are fewer than are supplied in all. */
  lemma LegacyIsFoundWhenSupplied(events: seq<Event>, id: Id, supplied: seq<Id>)
    requires forall i | 0 <= i < |events| :: Allowed(events[i], true)
    ensures var s := Run([], events);
            id < |s| ==>
              && WellLinked(s)
              && (CorrectsInstruction(s, id, supplied) <==>
                    && Distance(s, id).Some? && Distance(s, id).value < |supplied|
                    && Supplied(s, id, Distance(s, id).value, supplied) && s[Root(s, id)].kind.UserInstruction?)
  {
    RunKeeps([], events, true);
    var s := Run([], events);
    if id < |s| { SuppliedWalkReaches(s, true, s[id].scope, id, supplied, |supplied|); }
  }
}
