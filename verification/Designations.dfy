/** The suites required of a tool. They are named in several statements, between
    which other connections may name others, and any connection may die: what
    can still come to be required, and when a tool meets it all for ever. */
module Designations {
  import opened Wrappers
  import opened Json
  import opened ToolLanguage
  import opened Execution
  import opened Registry
  import opened RegistryRuns
  import Sets

  // What a designation in hand may still add.

  /** What a session goes on to name for a tool, if it can: no suite has the
      empty name. */
  function Pending(s: Session, hash: ToolDefinition): seq<string> {
    match s
    case DesignationAsked(h, wanted) => if h == hash && "" !in wanted then wanted else []
    case Naming(h, rest) => if h == hash then rest else []
    case _ => []
  }

  /** The rows that naming a list adds: it ends at the first that is there. */
  function Addable(had: set<string>, list: seq<string>): set<string>
    decreases |list|
  {
    if list == [] || list[0] in had then {} else {list[0]} + Addable(had + {list[0]}, list[1..])
  }

  function InHand(w: World, c: int, hash: ToolDefinition): set<string> {
    Addable(RequiredOf(w.tables, hash), Pending(w.At(c), hash))
  }

  lemma {:induction false} AddableIsNew(had: set<string>, list: seq<string>)
    ensures forall s | s in Addable(had, list) :: s in list && s !in had
    decreases |list|
  {
    if list != [] && list[0] !in had { AddableIsNew(had + {list[0]}, list[1..]); }
  }

  lemma {:induction false} AddableShrinks(had: set<string>, more: set<string>, list: seq<string>)
    requires had <= more
    ensures Addable(more, list) <= Addable(had, list)
    decreases |list|
  {
    if list != [] && list[0] !in more { AddableShrinks(had + {list[0]}, more + {list[0]}, list[1..]); }
  }

  // No suite is nameless.

  ghost predicate Named(w: World) {
    "" !in w.tables.suites && forall c | c in w.sessions && w.sessions[c].SuiteChecked? :: w.sessions[c].id != ""
  }

  lemma AdvanceKeepsNames(w: World, c: int, now: int, interrupts: Interrupts, text: Serializer)
    requires Named(w)
    ensures Named(Advance(w, c, now, interrupts, text))
  {
  }

  lemma StepKeepsNames(w: World, e: Event, text: Serializer)
    requires Named(w)
    ensures Named(Step(w, e, text))
  {
    if e.Continue? { AdvanceKeepsNames(w, e.conn, e.now, e.interrupts, text); }
  }

  lemma {:induction false} RunKeepsNames(w: World, events: seq<Event>, text: Serializer)
    requires Named(w)
    ensures Named(Run(w, events, text))
    decreases |events|
  {
    if events != [] {
      StepKeepsNames(w, events[0], text);
      RunKeepsNames(Step(w, events[0], text), events[1..], text);
    }
  }

  // What is required stays within what is in hand.

  ghost predicate Within(w: World, hash: ToolDefinition, bound: set<string>) {
    && hash in w.tables.required && w.tables.required[hash] <= bound
    && forall c :: InHand(w, c, hash) <= bound
  }

  lemma NamingStaysWithin(w: World, c: int, now: int, interrupts: Interrupts, text: Serializer, hash: ToolDefinition,
      bound: set<string>)
    requires Within(w, hash, bound) && w.At(c).Naming?
    ensures var w' := Advance(w, c, now, interrupts, text);
            hash in w'.tables.required && w'.tables.required[hash] <= bound && InHand(w', c, hash) <= bound
  {
    assert InHand(w, c, hash) <= bound;
  }

  lemma AdvanceStaysWithin(w: World, c: int, now: int, interrupts: Interrupts, text: Serializer, hash: ToolDefinition,
      bound: set<string>)
    requires Named(w) && Within(w, hash, bound)
    ensures var w' := Advance(w, c, now, interrupts, text);
            hash in w'.tables.required && w'.tables.required[hash] <= bound && InHand(w', c, hash) <= bound
  {
    assert InHand(w, c, hash) <= bound;
    if w.At(c).Naming? { NamingStaysWithin(w, c, now, interrupts, text, hash, bound); }
  }

  /** What a session has in hand is only lessened by what others do. */
  lemma OthersStayWithin(w: World, w': World, c: int, hash: ToolDefinition, bound: set<string>)
    requires Within(w, hash, bound) && Grows(w.tables, w'.tables) && w'.At(c) == w.At(c)
    ensures InHand(w', c, hash) <= bound
  {
    assert InHand(w, c, hash) <= bound;
    AddableShrinks(RequiredOf(w.tables, hash), RequiredOf(w'.tables, hash), Pending(w.At(c), hash));
  }

  lemma StepStaysWithin(w: World, e: Event, text: Serializer, hash: ToolDefinition, bound: set<string>)
    requires Named(w) && Within(w, hash, bound)
    ensures Within(Step(w, e, text), hash, bound)
  {
    var w' := Step(w, e, text);
    StepGrows(w, e, text);
    if e.Continue? { AdvanceStaysWithin(w, e.conn, e.now, e.interrupts, text, hash, bound); }
    forall c ensures InHand(w', c, hash) <= bound {
      if e.Continue? && e.conn != c { AdvanceLeavesOthers(w, e.conn, e.now, e.interrupts, text, c); }
      if w'.At(c) == w.At(c) { OthersStayWithin(w, w', c, hash, bound); }
    }
  }

  lemma {:induction false} RunStaysWithin(w: World, events: seq<Event>, text: Serializer, hash: ToolDefinition,
      bound: set<string>)
    requires Named(w) && Within(w, hash, bound)
    ensures Within(Run(w, events, text), hash, bound)
    decreases |events|
  {
    if events != [] {
      StepKeepsNames(w, events[0], text);
      StepStaysWithin(w, events[0], text, hash, bound);
      RunStaysWithin(Step(w, events[0], text), events[1..], text, hash, bound);
    }
  }

  // Whatever is in hand can come to be required.

  /** A case that no tool with another answer for no inputs passes. */
  function Probe(n: int): seq<Case> { [Case([], Num(Number(n, 0)))] }

  lemma {:induction false} FreshFrom(known: set<seq<Case>>, from: int) returns (n: int)
    ensures n >= from && Probe(n) !in known
    decreases |known|
  {
    n := from;
    if Probe(from) in known {
      assert forall k | k > from :: Probe(k)[0] != Probe(from)[0];
      n := FreshFrom(known - {Probe(from)}, from + 1);
    }
  }

  /** Cases that are not stored and that the tool does not meet. */
  lemma UnmetCases(known: set<seq<Case>>, hash: ToolDefinition) returns (n: int)
    ensures Probe(n) !in known && !MeetsSuite(hash, Probe(n))
  {
    var m := Meaning(hash.expression, Arr(Values([])), None);
    var avoid := if m.Some? then known + {[Case([], m.value)]} else known;
    n := FreshFrom(avoid, 0);
    assert Probe(n)[0].expected == Num(Number(n, 0)) && Values(Probe(n)[0].inputs) == Values([]);
  }

  /** Nothing changed but for suites that were stored and that the tool does not
      meet, and for other sessions. */
  ghost predicate OnlyUnmetStored(w: World, w': World, c: int, hash: ToolDefinition) {
    && w'.At(c) == w.At(c) && w'.tables == w.tables.(suites := w'.tables.suites)
    && (forall s | s in w.tables.suites :: s in w'.tables.suites && w'.tables.suites[s] == w.tables.suites[s])
    && (forall s | s in w'.tables.suites && s !in w.tables.suites :: !MeetsSuite(hash, w'.tables.suites[s]))
  }

  lemma ProbeIsStored(w: World, c: int, id: string, n: int, text: Serializer)
    requires w.At(c).Idle? && id != "" && id !in w.tables.suites && Probe(n) !in w.tables.suites.Values
    ensures Step(Step(w, BeginProtection(c, id, Probe(n), 0), text), Continue(c, 0, NEVER), text)
            == w.Move(c, SuiteChecked(id, Probe(n))).Move(c, Idle)
               .(tables := w.tables.(suites := w.tables.suites[id := Probe(n)]))
  {
  }

  lemma StoreOne(w: World, c: int, id: string, text: Serializer, hash: ToolDefinition) returns (after: seq<Event>)
    requires id != ""
    ensures OnlyUnmetStored(w, Run(w, after, text), c, hash) && id in Run(w, after, text).tables.suites
  {
    after := [];
    if id !in w.tables.suites {
      var n := UnmetCases(w.tables.suites.Values, hash);
      var idle := Step(w, Abandon(c + 1), text);
      var protect := [BeginProtection(c + 1, id, Probe(n), 0), Continue(c + 1, 0, NEVER)];
      RunTwo(idle, protect[0], protect[1], text);
      ProbeIsStored(idle, c + 1, id, n, text);
      after := [Abandon(c + 1)] + protect;
      assert after[1..] == protect;
    }
  }

  lemma {:induction false} StoreAll(w: World, c: int, wanted: seq<string>, text: Serializer, hash: ToolDefinition)
      returns (after: seq<Event>)
    requires "" !in wanted
    ensures OnlyUnmetStored(w, Run(w, after, text), c, hash)
    ensures forall i | 0 <= i < |wanted| :: wanted[i] in Run(w, after, text).tables.suites
    decreases |wanted|
  {
    after := [];
    if wanted != [] {
      assert wanted[0] in wanted;
      var first := StoreOne(w, c, wanted[0], text, hash);
      var rest := StoreAll(Run(w, first, text), c, wanted[1..], text, hash);
      after := first + rest;
      RunAppend(w, first, rest, text);
    }
  }

  /** A session that is naming suites, and is left alone, names all it can. */
  lemma {:induction false} NameUntil(w: World, c: int, text: Serializer, s: string) returns (after: seq<Event>)
    requires w.At(c).Naming? && s in InHand(w, c, w.At(c).hash)
    ensures var w' := Run(w, after, text);
            s in RequiredOf(w'.tables, w.At(c).hash) && w'.tables.suites == w.tables.suites
    decreases |w.At(c).rest|
  {
    var go := Continue(c, 0, NEVER);
    var next := Step(w, go, text);
    var rest: seq<Event> := [];
    if s != w.At(c).rest[0] { rest := NameUntil(next, c, text, s); }
    after := [go] + rest;
    assert after[1..] == rest;
  }

  lemma InHandIsNamed(w: World, c: int, text: Serializer, hash: ToolDefinition, s: string) returns (after: seq<Event>)
    requires Inv(w) && s in InHand(w, c, hash)
    ensures var w' := Run(w, after, text);
            && s in RequiredOf(w'.tables, hash) && s in w'.tables.suites
            && (if s in w.tables.suites then w'.tables.suites[s] == w.tables.suites[s]
                else !MeetsSuite(hash, w'.tables.suites[s]))
  {
    AddableIsNew(RequiredOf(w.tables, hash), Pending(w.At(c), hash));
    if w.At(c).Naming? {
      after := NameUntil(w, c, text, s);
    } else {
      var stored := StoreAll(w, c, w.At(c).wanted, text, hash);
      var w1 := Run(w, stored, text);
      var naming := Step(w1, Continue(c, 0, NEVER), text);
      var named := NameUntil(naming, c, text, s);
      after := stored + ([Continue(c, 0, NEVER)] + named);
      RunAppend(w, stored, [Continue(c, 0, NEVER)] + named, text);
      assert ([Continue(c, 0, NEVER)] + named)[1..] == named;
    }
  }

  // The results.

  predicate RequiredStays(past: World, after: seq<Event>, text: Serializer, hash: ToolDefinition) {
    RequiredOf(Run(past, after, text).tables, hash) == RequiredOf(past.tables, hash)
  }

  /** The suites required of a tool are named once: wherever a run has come, they
      never change again exactly if no designation in hand would add to them. */
  lemma RequiredIsFinal(before: seq<Event>, text: Serializer, hash: ToolDefinition)
    requires hash in Run(START, before, text).tables.required
    ensures var past := Run(START, before, text);
            (forall after :: RequiredStays(past, after, text, hash)) <==> forall c :: InHand(past, c, hash) == {}
  {
    var past := Run(START, before, text);
    RunKeepsInv(START, before, text);
    RunKeepsNames(START, before, text);
    if forall c :: InHand(past, c, hash) == {} {
      forall after ensures RequiredStays(past, after, text, hash) {
        RunStaysWithin(past, after, text, hash, past.tables.required[hash]);
        RunGrows(past, after, text);
      }
    } else {
      var c :| InHand(past, c, hash) != {};
      var s := Sets.Member(InHand(past, c, hash));
      AddableIsNew(RequiredOf(past.tables, hash), Pending(past.At(c), hash));
      var after := InHandIsNamed(past, c, text, hash, s);
      assert !RequiredStays(past, after, text, hash);
    }
  }

  ghost predicate MeetsItsTestsAfter(past: World, after: seq<Event>, text: Serializer, hash: ToolDefinition) {
    MeetsItsTests(Run(past, after, text).tables, hash)
  }

  ghost predicate Met(t: Tables, hash: ToolDefinition, s: string) { s in t.suites && MeetsSuite(hash, t.suites[s]) }

  /** Wherever a run has come, a tool meets all that is required of it for ever,
      exactly if it does now and no designation in hand would add a suite that it
      does not meet, or one that is still to be stored. */
  lemma AllTestsAreMetForEver(before: seq<Event>, text: Serializer, hash: ToolDefinition)
    ensures var past := Run(START, before, text);
            (forall after :: MeetsItsTestsAfter(past, after, text, hash)) <==>
              MeetsItsTests(past.tables, hash) && forall c, s | s in InHand(past, c, hash) :: Met(past.tables, hash, s)
  {
    var past := Run(START, before, text);
    RunKeepsInv(START, before, text);
    RunKeepsNames(START, before, text);
    if !MeetsItsTests(past.tables, hash) {
      assert !MeetsItsTestsAfter(past, [], text, hash);
    } else if forall c, s | s in InHand(past, c, hash) :: Met(past.tables, hash, s) {
      forall after ensures MeetsItsTestsAfter(past, after, text, hash) { MetStaysMet(past, after, text, hash); }
    } else {
      var c, s :| s in InHand(past, c, hash) && !Met(past.tables, hash, s);
      var after := InHandIsNamed(past, c, text, hash, s);
      assert !MeetsItsTestsAfter(past, after, text, hash);
    }
  }

  lemma MetStaysMet(past: World, after: seq<Event>, text: Serializer, hash: ToolDefinition)
    requires Named(past) && MeetsItsTests(past.tables, hash)
    requires forall c, s | s in InHand(past, c, hash) :: Met(past.tables, hash, s)
    ensures MeetsItsTestsAfter(past, after, text, hash)
  {
    var met := set s | s in past.tables.suites && Met(past.tables, hash, s);
    forall c ensures InHand(past, c, hash) <= met {
      forall s | s in InHand(past, c, hash) ensures s in met { assert Met(past.tables, hash, s); }
    }
    RunStaysWithin(past, after, text, hash, met);
    RunGrows(past, after, text);
  }

  // Runs that show both exceptions, with any tool that passes one case and
  // fails another.

  predicate Fitting(d: ToolDefinition, pass: Case, fail: Case, text: Serializer) {
    Validated(d, text).Ok? && CaseFits(pass) && CaseFits(fail) && pass != fail
  }

  lemma RunFour(w: World, a: Event, b: Event, c: Event, d: Event, text: Serializer)
    ensures Run(w, [a, b, c, d], text) ==
              Step(Step(Step(Step(w, a, text), b, text), c, text), d, text)
  {
    assert [a, b, c, d] == [a, b] + [c, d];
    RunAppend(w, [a, b], [c, d], text);
    RunTwo(w, a, b, text);
    RunTwo(Run(w, [a, b], text), c, d, text);
  }

  function Go(c: int): Event { Continue(c, 0, NEVER) }

  /** One connection registers the tool and protects the suite that it passes,
      and has checked the other. */
  function Protecting(d: ToolDefinition, pass: Case, fail: Case): seq<Event> {
    [Write(DoRegister(d, "")), BeginProtection(1, "a", [pass], 0), Go(1), BeginProtection(1, "b", [fail], 0)]
  }

  function Protected(d: ToolDefinition, pass: Case, fail: Case): World {
    World(EMPTY.(candidates := map[d := ""], suites := map["a" := [pass]]), map[1 := SuiteChecked("b", [fail])], {})
  }

  lemma ProtectingRuns(d: ToolDefinition, pass: Case, fail: Case, text: Serializer)
    requires Fitting(d, pass, fail, text)
    ensures Run(START, Protecting(d, pass, fail), text) == Protected(d, pass, fail)
  {
    var r := Protecting(d, pass, fail);
    SuitesAreApart();
    RunFour(START, r[0], r[1], r[2], r[3], text);
  }

  lemma SuitesAreApart()
    ensures "a" != "b" && "" != "b" && "" != "a"
  {
    assert "a"[0] != "b"[0];
  }

  function BothStored(d: ToolDefinition, pass: Case, fail: Case): Tables {
    EMPTY.(candidates := map[d := ""], suites := map["a" := [pass], "b" := [fail]])
  }

  function OneRequired(d: ToolDefinition, pass: Case, fail: Case): Tables {
    BothStored(d, pass, fail).(required := map[d := {"a"}])
  }

  lemma OneIsRequired(d: ToolDefinition, pass: Case, fail: Case)
    ensures InsertRequired(BothStored(d, pass, fail), d, "a") == (OneRequired(d, pass, fail), Ok(()))
  {
    assert {} + {"a"} == {"a"};
  }

  lemma SecondIsStored(d: ToolDefinition, pass: Case, fail: Case)
    requires pass != fail
    ensures InsertSuite(Protected(d, pass, fail).tables, "b", [fail]) == BothStored(d, pass, fail)
  {
    SuitesAreApart();
    assert [pass][0] != [fail][0];
  }

  /** It names both suites, and dies after the first. */
  function CutShort(d: ToolDefinition): seq<Event> { [Go(1), BeginDesignation(1, d, ["a", "b"]), Go(1), Go(1)] }

  lemma CutShortRuns(d: ToolDefinition, pass: Case, fail: Case, text: Serializer)
    requires pass != fail
    ensures Run(Protected(d, pass, fail), CutShort(d), text) ==
              World(OneRequired(d, pass, fail), map[1 := Naming(d, ["b"])], {})
  {
    var r := CutShort(d);
    RunFour(Protected(d, pass, fail), r[0], r[1], r[2], r[3], text);
    SecondIsStored(d, pass, fail);
    OneIsRequired(d, pass, fail);
    var stored := Step(Protected(d, pass, fail), r[0], text);
    var asked := Step(stored, r[1], text);
    assert asked.At(1) == DesignationAsked(d, ["a", "b"]);
    assert Step(asked, r[2], text) == World(BothStored(d, pass, fail), map[1 := Naming(d, ["a", "b"])], {});
    assert ["a", "b"][1..] == ["b"];
  }

  /** A designation that is cut short stays so: the tool is required to meet the
      one suite for ever, and never the other. */
  lemma CutDesignationStaysCut(d: ToolDefinition, pass: Case, fail: Case, text: Serializer)
    requires Fitting(d, pass, fail, text)
    ensures var cut := Run(START, Protecting(d, pass, fail) + (CutShort(d) + [Abandon(1)]), text);
            && RequiredOf(cut.tables, d) == {"a"}
            && forall after :: RequiredStays(cut, after, text, d)
  {
    var before := Protecting(d, pass, fail) + (CutShort(d) + [Abandon(1)]);
    ProtectingRuns(d, pass, fail, text);
    CutShortRuns(d, pass, fail, text);
    RunAppend(START, Protecting(d, pass, fail), CutShort(d) + [Abandon(1)], text);
    RunAppend(Protected(d, pass, fail), CutShort(d), [Abandon(1)], text);
    assert [Abandon(1)][1..] == [];
    assert Run(START, before, text).sessions == map[1 := Idle];
    assert forall c :: InHand(Run(START, before, text), c, d) == {};
    RequiredIsFinal(before, text, d);
  }

  /** Both suites are stored; one connection asks to require the second, and
      before it goes on another names the first, has the tool evaluated on it
      and activates it. */
  function NamingLate(d: ToolDefinition): seq<Event> {
    [Go(1), BeginDesignation(1, d, ["b"]), BeginDesignation(2, d, ["a"]), Go(2)]
  }

  function Reading(d: ToolDefinition): seq<Event> { [Go(2), Go(2), BeginEvaluation(2, d, "a"), Go(2)] }

  function ApprovalOf(d: ToolDefinition): Approval { Approval("grant", d, Labels(d.inputScope)) }

  function Approving(d: ToolDefinition): seq<Event> {
    [Go(2), Write(DoIssue("grant", d, Labels(d.inputScope), None, 0)), BeginActivation(2, ApprovalOf(d)), Go(2)]
  }

  function Activating(): seq<Event> { [Go(2), Go(2), Go(2), Go(1)] }

  function ActivationRun(d: ToolDefinition, pass: Case, fail: Case): seq<Event> {
    Protecting(d, pass, fail) + (NamingLate(d) + (Reading(d) + (Approving(d) + Activating())))
  }

  /** Both connections: the first stands as it asked. */
  function AtOnce(t: Tables, d: ToolDefinition, two: Session): World {
    World(t, map[1 := DesignationAsked(d, ["b"]), 2 := two], {})
  }

  function Approved(d: ToolDefinition, pass: Case, fail: Case): Tables {
    OneRequired(d, pass, fail).(
      evaluations := [Report(d, "a", true)],
      grants := map["grant" := Grant(d, Labels(d.inputScope), None, false)])
  }

  lemma NamingLateRuns(d: ToolDefinition, pass: Case, fail: Case, text: Serializer)
    requires pass != fail
    ensures Run(Protected(d, pass, fail), NamingLate(d), text) == AtOnce(BothStored(d, pass, fail), d, Naming(d, ["a"]))
  {
    var r := NamingLate(d);
    RunFour(Protected(d, pass, fail), r[0], r[1], r[2], r[3], text);
    SecondIsStored(d, pass, fail);
    var asked := Step(Step(Protected(d, pass, fail), r[0], text), r[1], text);
    assert asked.sessions == map[1 := DesignationAsked(d, ["b"])];
  }

  lemma ReadingRuns(d: ToolDefinition, pass: Case, fail: Case, text: Serializer)
    ensures Run(AtOnce(BothStored(d, pass, fail), d, Naming(d, ["a"])), Reading(d), text) ==
              AtOnce(OneRequired(d, pass, fail), d, CasesRead(d, "a", [pass]))
  {
    var w, r := AtOnce(BothStored(d, pass, fail), d, Naming(d, ["a"])), Reading(d);
    RunFour(w, r[0], r[1], r[2], r[3], text);
    OneIsRequired(d, pass, fail);
    assert ["a"][1..] == [];
    assert Step(w, r[0], text) == AtOnce(OneRequired(d, pass, fail), d, Naming(d, []));
    assert Step(Step(w, r[0], text), r[1], text) == AtOnce(OneRequired(d, pass, fail), d, Idle);
  }

  lemma ApprovingRuns(d: ToolDefinition, pass: Case, fail: Case, text: Serializer)
    requires SuitePasses(d, [pass], text, NEVER)
    ensures Run(AtOnce(OneRequired(d, pass, fail), d, CasesRead(d, "a", [pass])), Approving(d), text) ==
              AtOnce(Approved(d, pass, fail), d, GrantRead(ApprovalOf(d)))
  {
    var w, r := AtOnce(OneRequired(d, pass, fail), d, CasesRead(d, "a", [pass])), Approving(d);
    RunFour(w, r[0], r[1], r[2], r[3], text);
    assert [] + [Report(d, "a", true)] == [Report(d, "a", true)];
    var reported := OneRequired(d, pass, fail).(evaluations := [Report(d, "a", true)]);
    assert Step(w, r[0], text) == AtOnce(reported, d, Idle);
    assert Step(Step(w, r[0], text), r[1], text) == AtOnce(Approved(d, pass, fail), d, Idle);
  }

  lemma ActivatingRuns(d: ToolDefinition, pass: Case, fail: Case, text: Serializer)
    ensures var w := Run(AtOnce(Approved(d, pass, fail), d, GrantRead(ApprovalOf(d))), Activating(), text);
            && w.At(1) == Naming(d, ["b"])
            && w.tables == Approved(d, pass, fail).(activations := map[d.name := Activation(d, "grant", true)])
  {
    var w, r := AtOnce(Approved(d, pass, fail), d, GrantRead(ApprovalOf(d))), Activating();
    RunFour(w, r[0], r[1], r[2], r[3], text);
    assert Approved(d, pass, fail).evaluations[0] == Report(d, "a", true);
    assert SuiteHistoryClean(Approved(d, pass, fail), d, "a");
    var eligible := Step(Step(w, r[0], text), r[1], text);
    assert eligible.At(2) == EligibilityRead(ApprovalOf(d)) && eligible.tables == Approved(d, pass, fail);
  }

  lemma ActivationRuns(d: ToolDefinition, pass: Case, fail: Case, text: Serializer)
    requires Fitting(d, pass, fail, text) && SuitePasses(d, [pass], text, NEVER)
    ensures var w := Run(START, ActivationRun(d, pass, fail), text);
            && w.At(1) == Naming(d, ["b"])
            && w.tables == Approved(d, pass, fail).(activations := map[d.name := Activation(d, "grant", true)])
  {
    var reading := Reading(d) + (Approving(d) + Activating());
    RunAppend(START, Protecting(d, pass, fail), NamingLate(d) + reading, text);
    ProtectingRuns(d, pass, fail, text);
    RunAppend(Protected(d, pass, fail), NamingLate(d), reading, text);
    NamingLateRuns(d, pass, fail, text);
    var late := AtOnce(BothStored(d, pass, fail), d, Naming(d, ["a"]));
    RunAppend(late, Reading(d), Approving(d) + Activating(), text);
    ReadingRuns(d, pass, fail, text);
    RunAppend(AtOnce(OneRequired(d, pass, fail), d, CasesRead(d, "a", [pass])), Approving(d), Activating(), text);
    ApprovingRuns(d, pass, fail, text);
    ActivatingRuns(d, pass, fail, text);
  }

  lemma OneMoreIsNamed(w: World, c: int, hash: ToolDefinition, s: string, text: Serializer)
    requires w.At(c) == Naming(hash, [s]) && s !in RequiredOf(w.tables, hash)
    ensures Run(w, [Go(c)], text).tables == InsertRequired(w.tables, hash, s).0
  {
    assert [Go(c)][1..] == [];
    assert Run(w, [Go(c)], text) == Step(w, Go(c), text);
  }

  /** A tool is activated when it meets all that is required of it; then the
      designation that was in hand adds a suite that it fails, and it stays
      active. */
  lemma ActiveToolFailsLaterTest(d: ToolDefinition, pass: Case, fail: Case, text: Serializer)
    requires Fitting(d, pass, fail, text) && SuitePasses(d, [pass], text, NEVER) && !MeetsSuite(d, [fail])
    ensures var w := Run(START, ActivationRun(d, pass, fail), text);
            var u := Run(w, [Go(1)], text);
            && w.tables.activations == u.tables.activations
            && d.name in u.tables.activations && u.tables.activations[d.name] == Activation(d, "grant", true)
            && MeetsItsTests(w.tables, d) && !MeetsItsTests(u.tables, d)
  {
    ActivationRuns(d, pass, fail, text);
    SuitesAreApart();
    OneMoreIsNamed(Run(START, ActivationRun(d, pass, fail), text), 1, d, "b", text);
    PassedSuiteIsMet(d, [pass], text, NEVER);
  }
}
