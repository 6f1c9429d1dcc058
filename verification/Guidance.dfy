/** Learned guidance: the evidence it stands on, and which of it applies. */
module Guidance {
  import opened Wrappers
  import opened Memory
  import Sets

  const MAX_EVIDENCE: nat := 64

  /** What the walk sees of a record; none if it is missing or superseded. */
  datatype Evidence = Evidence(origin: Origin, kind: Kind, transient: bool, supersedes: Option<Id>,
      dependencies: seq<Id>)

  /** The active records; their links may go anywhere. */
  type Graph = map<Id, Evidence>

  /** A correction's predecessor is history, not another vote for the old
      preference. */
  function Followed(e: Evidence): seq<Id> { Kept(e.dependencies, e.supersedes) }

  function Kept(ids: seq<Id>, without: Option<Id>): seq<Id> {
    if ids == [] then [] else (if Some(ids[0]) == without then [] else [ids[0]]) + Kept(ids[1..], without)
  }

  lemma {:induction false} KeptMembers(ids: seq<Id>, without: Option<Id>)
    ensures forall id :: id in Kept(ids, without) <==> id in ids && Some(id) != without
  {
    if ids != [] { KeptMembers(ids[1..], without); }
  }

  // Reachability, stated by paths.

  predicate Edge(g: Graph, a: Id, b: Id) { a in g && b in g[a].dependencies && Some(b) != g[a].supersedes }

  predicate Path(g: Graph, sources: seq<Id>, p: seq<Id>) {
    p != [] && p[0] in sources && forall i | 0 < i < |p| :: Edge(g, p[i - 1], p[i])
  }

  /** Some source leads here without crossing a supersedes link. */
  ghost predicate Reachable(g: Graph, sources: seq<Id>, id: Id) { exists p :: Path(g, sources, p) && p[|p| - 1] == id }

  lemma SourcesAreReachable(g: Graph, sources: seq<Id>, id: Id)
    requires id in sources
    ensures Reachable(g, sources, id)
  {
    assert Path(g, sources, [id]);
    assert [id][|[id]| - 1] == id;
  }

  lemma ReachableStep(g: Graph, sources: seq<Id>, a: Id, b: Id)
    requires Reachable(g, sources, a) && Edge(g, a, b)
    ensures Reachable(g, sources, b)
  {
    var p :| Path(g, sources, p) && p[|p| - 1] == a;
    var q := p + [b];
    assert Path(g, sources, q);
    assert q[|q| - 1] == b;
  }

  lemma {:induction false} ClosedHoldsPath(g: Graph, sources: seq<Id>, checked: set<Id>, p: seq<Id>)
    requires (forall id | id in sources :: id in checked) && forall a, b | a in checked && Edge(g, a, b) :: b in checked
    requires Path(g, sources, p)
    ensures p[|p| - 1] in checked
    decreases |p|
  {
    if |p| > 1 {
      var q := p[..|p| - 1];
      assert Path(g, sources, q);
      ClosedHoldsPath(g, sources, checked, q);
      assert Edge(g, p[|p| - 2], p[|p| - 1]);
    }
  }

  lemma ClosedHoldsReachable(g: Graph, sources: seq<Id>, checked: set<Id>)
    requires (forall id | id in sources :: id in checked) && forall a, b | a in checked && Edge(g, a, b) :: b in checked
    ensures forall id | Reachable(g, sources, id) :: id in checked
  {
    forall id | Reachable(g, sources, id) ensures id in checked {
      var p :| Path(g, sources, p) && p[|p| - 1] == id;
      ClosedHoldsPath(g, sources, checked, p);
    }
  }

  // The walk.

  datatype Support = Support(explicit: bool, human: bool, ambiguous: bool)

  predicate Instructs(e: Evidence) { e.origin.Human? && (e.kind.UserInstruction? || e.kind.Correction?) }

  predicate Doubtful(e: Evidence) { e.origin.Human? && e.transient }

  function Noted(s: Support, e: Evidence): Support {
    Support(s.explicit || Instructs(e), s.human || e.origin.Human?, s.ambiguous || Doubtful(e))
  }

  /** The reachable records number at most 64, and are all active. */
  ghost predicate Supported(g: Graph, sources: seq<Id>) {
    exists all: set<Id> :: Covers(g, sources, all) && |all| <= MAX_EVIDENCE && forall id | id in all :: id in g
  }

  ghost predicate Covers(g: Graph, sources: seq<Id>, all: set<Id>) {
    forall id | Reachable(g, sources, id) :: id in all
  }

  /** What the flags say: whether such a record is reachable. */
  ghost predicate Exact(g: Graph, sources: seq<Id>, lasting: bool, r: Support) {
    && (r.explicit <==> exists id ::
          && Reachable(g, sources, id) && id in g && g[id].origin.Human?
          && (g[id].kind.UserInstruction? || g[id].kind.Correction?))
    && (r.human <==> exists id :: Reachable(g, sources, id) && id in g && g[id].origin.Human?)
    && (r.ambiguous <==>
          !lasting || exists id :: Reachable(g, sources, id) && id in g && g[id].origin.Human? && g[id].transient)
  }

  /** The walk so far: everything it holds is reachable, what it has checked is
      active and noted, and what leads on from that is still to come. */
  ghost predicate Walking(g: Graph, sources: seq<Id>, lasting: bool, checked: set<Id>, remaining: seq<Id>, r: Support) {
    && (forall id | id in checked || id in remaining :: Reachable(g, sources, id))
    && (forall id | id in checked :: id in g)
    && (forall id | id in sources :: id in checked || id in remaining)
    && (forall a, b | a in checked && Edge(g, a, b) :: b in checked || b in remaining)
    && (r.explicit <==> exists id | id in checked :: Instructs(g[id]))
    && (r.human <==> exists id | id in checked :: g[id].origin.Human?)
    && (r.ambiguous <==> !lasting || exists id | id in checked :: Doubtful(g[id]))
  }

  lemma WalkBegins(g: Graph, sources: seq<Id>, lasting: bool)
    ensures Walking(g, sources, lasting, {}, sources, Support(false, false, !lasting))
  {
    forall id | id in sources { SourcesAreReachable(g, sources, id); }
  }

  lemma WalkSkips(g: Graph, sources: seq<Id>, lasting: bool, checked: set<Id>, rest: seq<Id>, id: Id, r: Support)
    requires Walking(g, sources, lasting, checked, rest + [id], r) && id in checked
    ensures Walking(g, sources, lasting, checked, rest, r)
  {
    assert forall k | k in rest + [id] :: k in rest || k == id;
    assert forall k | k in rest :: k in rest + [id];
  }

  lemma WalkNotes(g: Graph, sources: seq<Id>, lasting: bool, checked: set<Id>, rest: seq<Id>, id: Id, r: Support)
    requires Walking(g, sources, lasting, checked, rest + [id], r) && id in g
    ensures Walking(g, sources, lasting, checked + {id}, rest + Followed(g[id]), Noted(r, g[id]))
  {
    var more := Followed(g[id]);
    assert (rest + [id])[|rest|] == id;
    assert forall k | k in rest + [id] :: k in rest || k == id;
    assert forall k | k in rest :: k in rest + [id];
    KeptMembers(g[id].dependencies, g[id].supersedes);
    forall b | b in more ensures Reachable(g, sources, b) { ReachableStep(g, sources, id, b); }
    assert forall b | Edge(g, id, b) :: b in more;
    assert id in checked + {id};
  }

  lemma WalkEnds(g: Graph, sources: seq<Id>, lasting: bool, checked: set<Id>, r: Support)
    requires Walking(g, sources, lasting, checked, [], r) && |checked| <= MAX_EVIDENCE
    ensures Supported(g, sources) && Exact(g, sources, lasting, r)
  {
    ClosedHoldsReachable(g, sources, checked);
    assert Covers(g, sources, checked);
  }

  lemma WalkFails(g: Graph, sources: seq<Id>, lasting: bool, checked: set<Id>, rest: seq<Id>, id: Id, r: Support)
    requires Walking(g, sources, lasting, checked, rest + [id], r)
    requires |checked + {id}| > MAX_EVIDENCE || id !in g
    ensures !Supported(g, sources)
  {
    assert (rest + [id])[|rest|] == id;
    var some := checked + {id};
    forall all: set<Id> | Covers(g, sources, all)
      ensures |some| <= |all| && id in all
    {
      Sets.SubsetIsSmaller(some, all);
    }
  }

  /** The walk ends on every graph. It succeeds exactly when the reachable
      records number at most 64 and are all active; its flags then say exactly
      what is among them. */
  method EvidenceSupport(g: Graph, sources: seq<Id>, lasting: bool) returns (r: Option<Support>)
    ensures r.Some? <==> Supported(g, sources)
    ensures r.Some? ==> Exact(g, sources, lasting, r.value)
  {
    var remaining := sources;
    var checked: set<Id> := {};
    var support := Support(false, false, !lasting);
    WalkBegins(g, sources, lasting);
    while remaining != []
      invariant Walking(g, sources, lasting, checked, remaining, support) && |checked| <= MAX_EVIDENCE
      decreases MAX_EVIDENCE + 1 - |checked|, |remaining|
    {
      var id, rest := remaining[|remaining| - 1], remaining[..|remaining| - 1];
      assert remaining == rest + [id];
      if id in checked {
        WalkSkips(g, sources, lasting, checked, rest, id, support);
        remaining := rest;
        continue;
      }
      if |checked + {id}| > MAX_EVIDENCE || id !in g {
        WalkFails(g, sources, lasting, checked, rest, id, support);
        return None;
      }
      WalkNotes(g, sources, lasting, checked, rest, id, support);
      support := Noted(support, g[id]);
      checked, remaining := checked + {id}, rest + Followed(g[id]);
    }
    WalkEnds(g, sources, lasting, checked, support);
    r := Some(support);
  }

  // Which guidance applies.

  type Key = string

  /** A candidate record, newest first: its adaptation's key, if it is stored
      guidance at all; whether its wording is within bounds and its sources
      still have the versions and scopes it names; those sources; and whether
      it is meant to last. */
  datatype Candidate = Candidate(id: Id, scope: Scope, key: Option<Key>, sound: bool, sources: seq<Id>, lasting: bool)

  /** Its evidence is still that of an inferred preference, not of a proposal:
      the walk succeeds, and finds a person's record and nothing ambiguous. */
  ghost predicate Standing(g: Graph, candidate: Candidate) {
    && candidate.sound && Supported(g, candidate.sources)
    && exists s :: Exact(g, candidate.sources, candidate.lasting, s) && s.human && !s.ambiguous
  }

  method IsStanding(g: Graph, candidate: Candidate) returns (standing: bool)
    ensures standing <==> Standing(g, candidate)
  {
    if !candidate.sound {
      return false;
    }
    var support := EvidenceSupport(g, candidate.sources, candidate.lasting);
    standing := support.Some? && support.value.human && !support.value.ambiguous;
  }

  /** The human controls: a switch per record, and the selected record for each
      scope and key. */
  datatype Controls = Controls(enabled: map<Id, bool>, selected: map<(Scope, Key), Id>)

  /** None if another record was selected for its scope and key. */
  function ControlState(c: Controls, candidate: Candidate, key: Key): Option<bool> {
    var at := (candidate.scope, key);
    if at in c.selected && c.selected[at] != candidate.id then None
    else Some(if candidate.id in c.enabled then c.enabled[candidate.id] else true)
  }

  ghost function Applicability(g: Graph, c: Controls, candidate: Candidate): Option<(Key, bool)> {
    if candidate.key.None? || !Standing(g, candidate) then None
    else
      var state := ControlState(c, candidate, candidate.key.value);
      if state.None? then None else Some((candidate.key.value, state.value))
  }

  method ApplicableCandidate(g: Graph, c: Controls, candidate: Candidate) returns (r: Option<(Key, bool)>)
    ensures r == Applicability(g, c, candidate)
  {
    if candidate.key.None? {
      return None;
    }
    var standing := IsStanding(g, candidate);
    if !standing {
      return None;
    }
    var state := ControlState(c, candidate, candidate.key.value);
    r := if state.None? then None else Some((candidate.key.value, state.value));
  }

  const MAX_GUIDANCE: nat := 16

  /** The candidates that speak for their key: the first applicable one of each,
      if it is enabled. */
  ghost predicate Speaks(g: Graph, c: Controls, candidates: seq<Candidate>, i: nat)
    requires i < |candidates|
  {
    var a := Applicability(g, c, candidates[i]);
    && a.Some? && a.value.1
    && forall k | 0 <= k < i :: !HasKey(g, c, candidates[k], a.value.0)
  }

  ghost function Speakers(g: Graph, c: Controls, candidates: seq<Candidate>, upTo: nat): seq<Candidate>
    requires upTo <= |candidates|
  {
    if upTo == 0 then []
    else
      var before := Speakers(g, c, candidates, upTo - 1);
      if Speaks(g, c, candidates, upTo - 1) then before + [candidates[upTo - 1]] else before
  }

  function Least(a: nat, b: nat): nat { if a < b then a else b }

  /** A disabled newest adaptation does not bring back an older one. */
  method ApplicableGuidance(g: Graph, c: Controls, candidates: seq<Candidate>, limit: nat)
      returns (result: seq<Candidate>)
    ensures |result| <= Least(limit, MAX_GUIDANCE)
    ensures exists n | 0 <= n <= |candidates| ::
              result == Speakers(g, c, candidates, n) && (n == |candidates| || |result| == Least(limit, MAX_GUIDANCE))
  {
    result := [];
    if limit == 0 {
      assert result == Speakers(g, c, candidates, 0);
      return;
    }
    var seen: set<Key> := {};
    for i := 0 to |candidates|
      invariant result == Speakers(g, c, candidates, i) && |result| < Least(limit, MAX_GUIDANCE)
      invariant forall key :: key in seen <==> KeySeen(g, c, candidates, i, key)
    {
      var a := ApplicableCandidate(g, c, candidates[i]);
      KeySeenNext(g, c, candidates, i);
      if a.None? {
        continue;
      }
      var known := a.value.0 in seen;
      seen := seen + {a.value.0};
      if known || !a.value.1 {
        continue;
      }
      result := result + [candidates[i]];
      if |result| >= Least(limit, MAX_GUIDANCE) {
        assert result == Speakers(g, c, candidates, i + 1);
        return;
      }
    }
  }

  ghost predicate KeySeen(g: Graph, c: Controls, candidates: seq<Candidate>, i: nat, key: Key)
    requires i <= |candidates|
  {
    exists k | 0 <= k < i :: HasKey(g, c, candidates[k], key)
  }

  ghost predicate HasKey(g: Graph, c: Controls, candidate: Candidate, key: Key) {
    var b := Applicability(g, c, candidate);
    b.Some? && b.value.0 == key
  }

  lemma KeySeenNext(g: Graph, c: Controls, candidates: seq<Candidate>, i: nat)
    requires i < |candidates|
    ensures forall key ::
              KeySeen(g, c, candidates, i + 1, key) <==>
                KeySeen(g, c, candidates, i, key) || HasKey(g, c, candidates[i], key)
    ensures var a := Applicability(g, c, candidates[i]);
            Speaks(g, c, candidates, i) <==> a.Some? && a.value.1 && !KeySeen(g, c, candidates, i, a.value.0)
  {
    var a := Applicability(g, c, candidates[i]);
    if a.Some? && KeySeen(g, c, candidates, i, a.value.0) {
      var k :| 0 <= k < i && HasKey(g, c, candidates[k], a.value.0);
    }
  }

  lemma {:induction false} SpeakerAt(g: Graph, c: Controls, candidates: seq<Candidate>, upTo: nat, x: nat)
      returns (i: nat)
    requires upTo <= |candidates| && x < |Speakers(g, c, candidates, upTo)|
    ensures i < upTo && candidates[i] == Speakers(g, c, candidates, upTo)[x] && Speaks(g, c, candidates, i)
  {
    if x < |Speakers(g, c, candidates, upTo - 1)| {
      i := SpeakerAt(g, c, candidates, upTo - 1, x);
    } else {
      i := upTo - 1;
    }
  }

  lemma {:induction false} SpeakersAreListed(g: Graph, c: Controls, candidates: seq<Candidate>, upTo: nat, i: nat)
    requires i < upTo <= |candidates| && Speaks(g, c, candidates, i)
    ensures candidates[i] in Speakers(g, c, candidates, upTo)
  {
    var before := Speakers(g, c, candidates, upTo - 1);
    if i < upTo - 1 {
      SpeakersAreListed(g, c, candidates, upTo - 1, i);
    } else {
      assert Speakers(g, c, candidates, upTo)[|before|] == candidates[i];
    }
  }

  lemma {:induction false} SpeakersDiffer(g: Graph, c: Controls, candidates: seq<Candidate>, upTo: nat, x: nat, y: nat)
    requires upTo <= |candidates| && x < y < |Speakers(g, c, candidates, upTo)|
    ensures Speakers(g, c, candidates, upTo)[x].key != Speakers(g, c, candidates, upTo)[y].key
  {
    var before, last := Speakers(g, c, candidates, upTo - 1), candidates[upTo - 1];
    if y < |before| {
      SpeakersDiffer(g, c, candidates, upTo - 1, x, y);
    } else {
      var i := SpeakerAt(g, c, candidates, upTo - 1, x);
      assert HasKey(g, c, candidates[i], before[x].key.value) && !HasKey(g, c, candidates[i], last.key.value);
    }
  }

  // Guidance stands on its evidence, whatever the switches.

  /** What applies is standing guidance: at most 64 records are reachable as its
      evidence, all active; a person made one of them, and none a person made is
      transient or quoted. */
  lemma {:induction false} WhatSpeaksIsSupported(g: Graph, c: Controls, candidates: seq<Candidate>, n: nat)
    requires n <= |candidates|
    ensures forall x | x in Speakers(g, c, candidates, n) ::
              && x.key.Some? && x.lasting && Supported(g, x.sources)
              && (forall id | Reachable(g, x.sources, id) :: id in g && !(g[id].origin.Human? && g[id].transient))
              && exists id :: Reachable(g, x.sources, id) && id in g && g[id].origin.Human?
  {
    var r := Speakers(g, c, candidates, n);
    forall x | x in r
      ensures x.key.Some? && x.lasting && Supported(g, x.sources)
      ensures forall id | Reachable(g, x.sources, id) :: id in g && !(g[id].origin.Human? && g[id].transient)
      ensures exists id :: Reachable(g, x.sources, id) && id in g && g[id].origin.Human?
    {
      var k :| 0 <= k < |r| && r[k] == x;
      var i := SpeakerAt(g, c, candidates, n, k);
    }
  }

  /** Standing guidance for this key, and no other record is the selected one of
      its scope and key. */
  ghost predicate Contends(g: Graph, c: Controls, candidate: Candidate, key: Key) {
    && candidate.key == Some(key) && Standing(g, candidate)
    && ((candidate.scope, key) in c.selected ==> c.selected[(candidate.scope, key)] == candidate.id)
  }

  /** A candidate applies exactly when it contends for its key, was not switched
      off, and no candidate before it contends for that key, on or off: the newest
      decides, and a record nobody switched is on. */
  lemma SpeaksExactlyWhen(g: Graph, c: Controls, candidates: seq<Candidate>, i: nat)
    requires i < |candidates| && forall k | 0 <= k < i :: candidates[k] != candidates[i]
    ensures var x := candidates[i];
            x in Speakers(g, c, candidates, |candidates|) <==>
              && x.key.Some? && Contends(g, c, x, x.key.value)
              && (x.id in c.enabled ==> c.enabled[x.id])
              && forall k | 0 <= k < i :: !Contends(g, c, candidates[k], x.key.value)
  {
    var x := candidates[i];
    forall k, key | 0 <= k < |candidates|
      ensures HasKey(g, c, candidates[k], key) <==> Contends(g, c, candidates[k], key)
    {
    }
    if Speaks(g, c, candidates, i) { SpeakersAreListed(g, c, candidates, |candidates|, i); }
    var r := Speakers(g, c, candidates, |candidates|);
    if x in r {
      var y :| 0 <= y < |r| && r[y] == x;
      var n := SpeakerAt(g, c, candidates, |candidates|, y);
      assert HasKey(g, c, candidates[n], x.key.value);
    }
  }

  /** `gone` is no longer active. Any other records may have gone with it, at
      once or since, and anything may have been added; an id never comes back
      with other evidence. */
  ghost predicate Withdrawn(before: Graph, after: Graph, gone: Id) {
    gone !in after && forall id | id in before && id in after :: after[id] == before[id]
  }

  /** Along a path from the sources, something that is reached is no longer
      active: the first record that went. */
  lemma {:induction false} FirstWithdrawnIsReached(
      before: Graph, after: Graph, gone: Id, sources: seq<Id>, p: seq<Id>) returns (id: Id)
    requires Withdrawn(before, after, gone) && Path(before, sources, p) && p[|p| - 1] !in after
    ensures Reachable(after, sources, id) && id !in after
    decreases |p|
  {
    if k :| 0 <= k < |p| - 1 && p[k] !in after {
      id := FirstWithdrawnIsReached(before, after, gone, sources, p[..k + 1]);
    } else {
      id := p[|p| - 1];
      forall i | 0 < i < |p| ensures Edge(after, p[i - 1], p[i]) {
        assert Edge(before, p[i - 1], p[i]) && p[i - 1] in after;
      }
      assert Path(after, sources, p);
    }
  }

  /** Once a record is forgotten or superseded, with whatever else goes then or
      later, all guidance that it was evidence of falls silent, and no switch
      brings it back. */
  lemma WithdrawnEvidenceSilences(before: Graph, after: Graph, gone: Id, x: Candidate, candidates: seq<Candidate>,
      n: nat)
    requires Withdrawn(before, after, gone) && Reachable(before, x.sources, gone) && n <= |candidates|
    ensures forall c :: x !in Speakers(after, c, candidates, n)
  {
    var p :| Path(before, x.sources, p) && p[|p| - 1] == gone;
    var id := FirstWithdrawnIsReached(before, after, gone, x.sources, p);
    forall c ensures x !in Speakers(after, c, candidates, n) { WhatSpeaksIsSupported(after, c, candidates, n); }
  }

  /** Explicit human control of one record: its switch is set, and it becomes
      the one selected for its scope and key. */
  function SetEnabled(c: Controls, candidate: Candidate, enabled: bool): Controls
    requires candidate.key.Some?
  {
    Controls(c.enabled[candidate.id := enabled], c.selected[(candidate.scope, candidate.key.value) := candidate.id])
  }

  /** At most one record applies per key; and after a record is switched, no
      other record of its scope and key applies, and it does only if on. */
  lemma OneVoicePerKey(
    g: Graph, c: Controls, candidate: Candidate, enabled: bool, candidates: seq<Candidate>, n: nat)
    requires n <= |candidates|
    ensures var r := Speakers(g, c, candidates, n); forall x, y | 0 <= x < y < |r| :: r[x].key != r[y].key
    ensures candidate.key.Some? ==>
              forall x | x in Speakers(g, SetEnabled(c, candidate, enabled), candidates, n) ::
                x.scope == candidate.scope && x.key == candidate.key ==> x.id == candidate.id && enabled
  {
    forall x, y | 0 <= x < y < |Speakers(g, c, candidates, n)| { SpeakersDiffer(g, c, candidates, n, x, y); }
    if candidate.key.Some? {
      var after := SetEnabled(c, candidate, enabled);
      var r := Speakers(g, after, candidates, n);
      forall x | x in r && x.scope == candidate.scope && x.key == candidate.key
        ensures x.id == candidate.id && enabled
      {
        var k :| 0 <= k < |r| && r[k] == x;
        var i := SpeakerAt(g, after, candidates, n, k);
      }
    }
  }

  /** A record just switched on applies, if it is among the candidates before
      any of its key from another scope. */
  lemma SwitchedOnSpeaks(g: Graph, c: Controls, candidates: seq<Candidate>, i: nat)
    requires i < |candidates| && Standing(g, candidates[i]) && candidates[i].key.Some?
    requires forall k | 0 <= k < i :: candidates[k].id != candidates[i].id
    ensures var after := SetEnabled(c, candidates[i], true);
            candidates[i] in Speakers(g, after, candidates, |candidates|) <==>
            forall k | 0 <= k < i :: candidates[k].scope != candidates[i].scope ==>
              !HasKey(g, after, candidates[k], candidates[i].key.value)
  {
    var after := SetEnabled(c, candidates[i], true);
    var r := Speakers(g, after, candidates, |candidates|);
    if Speaks(g, after, candidates, i) { SpeakersAreListed(g, after, candidates, |candidates|, i); }
    if candidates[i] in r {
      var k :| 0 <= k < |r| && r[k] == candidates[i];
      var n := SpeakerAt(g, after, candidates, |candidates|, k);
    }
  }

  class Switchboard {
    var controls: Controls

    /** `undisturbed`: nothing was forgotten, and no source replaced, between the
        look-up and the write. */
    method Switch(g: Graph, candidate: Candidate, enabled: bool, undisturbed: bool) returns (ok: bool)
      modifies this
      ensures ok <==> candidate.id in g && candidate.key.Some? && Standing(g, candidate) && undisturbed
      ensures controls == if ok then SetEnabled(old(controls), candidate, enabled) else old(controls)
    {
      if candidate.id !in g || candidate.key.None? {
        return false;
      }
      ok := IsStanding(g, candidate);
      ok := ok && undisturbed;
      if ok {
        controls := SetEnabled(controls, candidate, enabled);
      }
    }
  }
}
