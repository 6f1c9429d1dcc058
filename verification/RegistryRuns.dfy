/** Any number of connections working on one registry. Protecting a suite,
    naming a tool's required suites, an evaluation, an activation and an
    invocation read and write the tables in separate steps; every step of every
    connection may interleave with every other. */
module RegistryRuns {
  import opened Wrappers
  import opened Json
  import opened ToolLanguage
  import opened Execution
  import opened Registry

  /** Where a connection stands in a multi-step operation. */
  datatype Session =
    | Idle
    | SuiteChecked(id: string, cases: seq<Case>)
    | DesignationAsked(hash: ToolDefinition, wanted: seq<string>) // none is required yet
    | Naming(hash: ToolDefinition, rest: seq<string>)             // all wanted suites exist
    | EvaluationAsked(hash: ToolDefinition, suite: string)
    | CasesRead(hash: ToolDefinition, suite: string, cases: seq<Case>)
    | ActivationAsked(approval: Approval)
    | GrantRead(approval: Approval)
    | RetirementRead(approval: Approval)
    | EligibilityRead(approval: Approval)
    | ToolRead(name: string, inputs: seq<ScopedInput>, hash: ToolDefinition, grantId: string)
    | ScopeRead(name: string, inputs: seq<ScopedInput>, hash: ToolDefinition, grantId: string, scope: set<string>)
    | Evaluated(name: string, inputs: seq<ScopedInput>, hash: ToolDefinition, grantId: string, result: ToolResult)

  /** Each eligibility that was read: the tool, and its required suites then. */
  type Passed = set<(ToolDefinition, set<string>)>

  /** `passed` is history. */
  datatype World = World(tables: Tables, sessions: map<int, Session>, passed: Passed) {
    function At(c: int): Session { if c in sessions then sessions[c] else Idle }
    function Move(c: int, s: Session): World { this.(sessions := sessions[c := s]) }
  }

  /** An operation that is one write. */
  datatype Change =
    | DoRegister(d: ToolDefinition, evidence: string)
    | DoIssue(grant: string, hash: ToolDefinition, scope: set<string>, expiresAt: Option<int>, now: int)
    | DoRevoke(grant: string)
    | DoAssess(hash: ToolDefinition, inputScope: Scope, retires: bool)
    | DoReject(hash: ToolDefinition)

  datatype Event =
    | Write(change: Change)
    | BeginProtection(conn: int, id: string, cases: seq<Case>, encodedBytes: nat)
    | BeginDesignation(conn: int, hash: ToolDefinition, wanted: seq<string>)
    | BeginEvaluation(conn: int, hash: ToolDefinition, suite: string)
    | BeginActivation(conn: int, approval: Approval)
    | BeginInvocation(conn: int, name: string, inputs: seq<ScopedInput>)
    | Continue(conn: int, now: int, interrupts: Interrupts)
    | Abandon(conn: int)

  const START: World := World(EMPTY, map[], {})

  function Changed(t: Tables, change: Change, text: Serializer): Tables {
    match change
    case DoRegister(d, evidence) => Register(t, d, evidence, text).0
    case DoIssue(grant, hash, scope, expiresAt, now) => IssueGrant(t, grant, hash, scope, expiresAt, now).0
    case DoRevoke(grant) => Revoke(t, grant).0
    case DoAssess(hash, inputScope, retires) =>
      if hash in t.candidates && hash.inputScope == inputScope && retires then Retire(t, hash) else t
    case DoReject(hash) => Retire(t, hash)
  }

  function Step(w: World, e: Event, text: Serializer): World {
    match e
    case Write(change) => w.(tables := Changed(w.tables, change, text))
    case BeginProtection(c, id, cases, bytes) =>
      if w.At(c).Idle? && CheckSuite(w.tables, id, cases, bytes).Ok? then w.Move(c, SuiteChecked(id, cases)) else w
    case BeginDesignation(c, hash, wanted) =>
      if w.At(c).Idle? && wanted != [] && hash in w.tables.candidates && hash !in w.tables.required
      then w.Move(c, DesignationAsked(hash, wanted)) else w
    case BeginEvaluation(c, hash, suite) =>
      if w.At(c).Idle? && hash in w.tables.candidates then w.Move(c, EvaluationAsked(hash, suite)) else w
    case BeginActivation(c, approval) =>
      if w.At(c).Idle? && approval.hash in w.tables.candidates then w.Move(c, ActivationAsked(approval)) else w
    case BeginInvocation(c, name, inputs) =>
      var active := ActiveToolGrant(w.tables, name);
      if w.At(c).Idle? && active.Ok? then w.Move(c, ToolRead(name, inputs, active.value.hash, active.value.grantId))
      else w
    case Continue(c, now, interrupts) => Advance(w, c, now, interrupts, text)
    case Abandon(c) => w.Move(c, Idle)
  }

  /** The next separate read or write of a connection's operation. */
  function Advance(w: World, c: int, now: int, interrupts: Interrupts, text: Serializer): World {
    match w.At(c)
    case Idle => w
    case SuiteChecked(id, cases) => w.Move(c, Idle).(tables := InsertSuite(w.tables, id, cases))
    case DesignationAsked(hash, wanted) =>
      w.Move(c, if forall i | 0 <= i < |wanted| :: wanted[i] in w.tables.suites then Naming(hash, wanted) else Idle)
    case Naming(hash, rest) =>
      if rest == [] then w.Move(c, Idle)
      else
        var named := InsertRequired(w.tables, hash, rest[0]);
        w.Move(c, if named.1.Ok? then Naming(hash, rest[1..]) else Idle).(tables := named.0)
    case EvaluationAsked(hash, suite) =>
      w.Move(c, if suite in w.tables.suites then CasesRead(hash, suite, w.tables.suites[suite]) else Idle)
    case CasesRead(hash, suite, cases) =>
      var report := Report(hash, suite, SuitePasses(hash, cases, text, interrupts));
      w.Move(c, Idle).(tables := AppendReport(w.tables, report))
    case ActivationAsked(a) => w.Move(c, if GrantMatches(w.tables, a, now) then GrantRead(a) else Idle)
    case GrantRead(a) => w.Move(c, if a.hash in w.tables.retired then Idle else RetirementRead(a))
    case RetirementRead(a) =>
      if !Eligible(w.tables, a.hash) then w.Move(c, Idle)
      else w.Move(c, EligibilityRead(a)).(passed := w.passed + {(a.hash, w.tables.required[a.hash])})
    case EligibilityRead(a) => w.Move(c, Idle).(tables := StoreActivation(w.tables, a, now).0)
    case ToolRead(name, inputs, hash, grantId) =>
      var scope := InvocationScope(w.tables, grantId, inputs, hash, now);
      w.Move(
        c, if hash in w.tables.candidates && scope.Ok? then ScopeRead(name, inputs, hash, grantId, scope.value)
           else Idle)
    case ScopeRead(name, inputs, hash, grantId, scope) =>
      var r := Executed(hash, inputs, text, MAX_FUEL, RunLimits(interrupts.stops(0)));
      w.Move(c, if r.Ok? && r.value.outputScope <= scope then Evaluated(name, inputs, hash, grantId, r.value) else Idle)
    case Evaluated(_, _, _, _, _) => w.Move(c, Idle)
  }

  /** What the final recheck of an invocation returns to its caller. */
  function Returned(w: World, c: int, now: int): Result<ToolResult, Refusal> {
    match w.At(c)
    case Evaluated(_, _, _, grantId, result) =>
      if GrantStillValid(w.tables, grantId, now) then Ok(result) else Err(ApprovalMismatch)
    case _ => Err(NotFound)
  }

  function Run(w: World, events: seq<Event>, text: Serializer): World
    decreases |events|
  {
    if events == [] then w else Run(Step(w, events[0], text), events[1..], text)
  }

  lemma {:induction false} RunAppend(w: World, a: seq<Event>, b: seq<Event>, text: Serializer)
    ensures Run(w, a + b, text) == Run(Run(w, a, text), b, text)
    decreases |a|
  {
    if a == [] {
      assert a + b == b;
    } else {
      assert (a + b)[1..] == a[1..] + b;
      RunAppend(Step(w, a[0], text), a[1..], b, text);
    }
  }

  // What a connection's own step leaves alone.

  lemma InsertsIssueNothing(t: Tables, id: string, cases: seq<Case>, hash: ToolDefinition, suite: string)
    ensures var u := InsertSuite(t, id, cases); u == t.(suites := u.suites)
    ensures var u := InsertRequired(t, hash, suite).0; u == t.(required := u.required)
  {
  }

  lemma ActivationIssuesNothing(t: Tables, a: Approval, now: int)
    ensures var u := StoreActivation(t, a, now).0; u == t.(activations := u.activations)
  {
  }

  lemma AdvanceOnlyMoves(w: World, c: int, now: int, interrupts: Interrupts, text: Serializer)
    requires var s := w.At(c); !s.SuiteChecked? && !s.Naming? && !s.EligibilityRead? && !s.CasesRead?
    ensures Advance(w, c, now, interrupts, text).tables == w.tables
  {
  }

  // What the tables only ever gain.

  ghost predicate Grows(t: Tables, u: Tables) {
    && (forall d | d in t.candidates :: d in u.candidates)
    && (forall s | s in t.suites :: s in u.suites && u.suites[s] == t.suites[s])
    && (forall h | h in t.required :: h in u.required && t.required[h] <= u.required[h])
    && t.evaluations <= u.evaluations
    && (forall g | g in t.grants :: g in u.grants && u.grants[g].hash == t.grants[g].hash
                                    && u.grants[g].scope == t.grants[g].scope
                                    && u.grants[g].expiresAt == t.grants[g].expiresAt
                                    && (t.grants[g].revoked ==> u.grants[g].revoked))
    && (forall n | n in t.activations :: n in u.activations
                                         && u.activations[n].hash.inputScope == t.activations[n].hash.inputScope)
    && t.retired <= u.retired
  }

  lemma RetireGrows(t: Tables, hash: ToolDefinition)
    ensures Grows(t, Retire(t, hash))
  {
  }

  lemma GrantsGrow(t: Tables, u: Tables)
    requires u == t.(grants := u.grants)
    requires forall g | g in t.grants ::
               g in u.grants && u.grants[g].(revoked := false) == t.grants[g].(revoked := false)
                                         && (t.grants[g].revoked ==> u.grants[g].revoked)
    ensures Grows(t, u)
  {
  }

  lemma SuitesGrow(t: Tables, u: Tables)
    requires u == t.(candidates := u.candidates, suites := u.suites, required := u.required)
    requires forall d | d in t.candidates :: d in u.candidates
    requires forall s | s in t.suites :: s in u.suites && u.suites[s] == t.suites[s]
    requires forall h | h in t.required :: h in u.required && t.required[h] <= u.required[h]
    ensures Grows(t, u)
  {
  }

  // The writes that only add, and what they leave of the required sets.

  ghost predicate Adds(t: Tables, u: Tables) {
    && Grows(t, u)
    && u == t.(candidates := u.candidates, suites := u.suites, required := u.required)
    && ((forall h | h in t.required :: Nameable(t, t.required[h])) ==>
          forall h | h in u.required :: Nameable(u, u.required[h]))
  }

  predicate Nameable(t: Tables, suites: set<string>) { suites != {} && suites <= t.suites.Keys }

  lemma RegisterAdds(t: Tables, d: ToolDefinition, evidence: string, text: Serializer)
    ensures Adds(t, Register(t, d, evidence, text).0)
  {
    SuitesGrow(t, Register(t, d, evidence, text).0);
  }

  lemma InsertSuiteAdds(t: Tables, id: string, cases: seq<Case>)
    ensures Adds(t, InsertSuite(t, id, cases))
  {
    SuitesGrow(t, InsertSuite(t, id, cases));
  }

  lemma InsertRequiredGrows(t: Tables, hash: ToolDefinition, suite: string)
    ensures Grows(t, InsertRequired(t, hash, suite).0)
  {
    SuitesGrow(t, InsertRequired(t, hash, suite).0);
  }

  lemma InsertRequiredAdds(t: Tables, hash: ToolDefinition, suite: string)
    requires suite in t.suites
    ensures Adds(t, InsertRequired(t, hash, suite).0)
  {
    InsertRequiredGrows(t, hash, suite);
  }

  lemma IssueGrows(t: Tables, id: string, hash: ToolDefinition, scope: set<string>, expiresAt: Option<int>, now: int)
    ensures Grows(t, IssueGrant(t, id, hash, scope, expiresAt, now).0)
  {
    GrantsGrow(t, IssueGrant(t, id, hash, scope, expiresAt, now).0);
  }

  lemma ChangeGrows(t: Tables, change: Change, text: Serializer)
    ensures Grows(t, Changed(t, change, text))
  {
    match change {
      case DoAssess(hash, _, _) => RetireGrows(t, hash);
      case DoReject(hash) => RetireGrows(t, hash);
      case DoIssue(id, hash, scope, expiresAt, now) => IssueGrows(t, id, hash, scope, expiresAt, now);
      case DoRevoke(id) => GrantsGrow(t, Revoke(t, id).0);
      case DoRegister(d, evidence) => RegisterAdds(t, d, evidence, text);
    }
  }

  lemma ActivateGrows(t: Tables, a: Approval, now: int)
    ensures Grows(t, StoreActivation(t, a, now).0)
  {
  }

  lemma AdvanceGrows(w: World, c: int, now: int, interrupts: Interrupts, text: Serializer)
    ensures Grows(w.tables, Advance(w, c, now, interrupts, text).tables)
  {
    match w.At(c) {
      case SuiteChecked(id, cases) => InsertSuiteAdds(w.tables, id, cases);
      case Naming(hash, rest) => if rest != [] { InsertRequiredGrows(w.tables, hash, rest[0]); }
      case EligibilityRead(a) => ActivateGrows(w.tables, a, now);
      case CasesRead(hash, suite, cases) =>
        ReportGrows(w.tables, Report(hash, suite, SuitePasses(hash, cases, text, interrupts)));
      case _ => GrowsItself(w.tables);
    }
  }

  lemma ReportGrows(t: Tables, r: Report)
    ensures Grows(t, AppendReport(t, r))
  {
  }

  lemma GrowsItself(t: Tables)
    ensures Grows(t, t)
  {
  }

  lemma AdvanceRemembers(w: World, c: int, now: int, interrupts: Interrupts, text: Serializer)
    ensures w.passed <= Advance(w, c, now, interrupts, text).passed
  {
  }

  lemma StepGrows(w: World, e: Event, text: Serializer)
    ensures Grows(w.tables, Step(w, e, text).tables) && w.passed <= Step(w, e, text).passed
  {
    match e {
      case Write(change) => ChangeGrows(w.tables, change, text);
      case Continue(c, now, interrupts) =>
        AdvanceGrows(w, c, now, interrupts, text);
        AdvanceRemembers(w, c, now, interrupts, text);
      case _ =>
    }
  }

  lemma {:induction false} RunGrows(w: World, events: seq<Event>, text: Serializer)
    ensures Grows(w.tables, Run(w, events, text).tables) && w.passed <= Run(w, events, text).passed
    decreases |events|
  {
    if events != [] {
      StepGrows(w, events[0], text);
      RunGrows(Step(w, events[0], text), events[1..], text);
    }
  }

  // The invariant of every interleaving.

  /** The tool maps every case of the suite to its expected value. */
  ghost predicate MeetsSuite(hash: ToolDefinition, cases: seq<Case>) {
    && cases != []
    && forall i | 0 <= i < |cases| ::
         Meaning(hash.expression, Arr(Values(cases[i].inputs)), None) == Some(cases[i].expected)
  }

  /** The tool meets these stored suites, of which there are some. */
  ghost predicate MeetsSuites(t: Tables, hash: ToolDefinition, suites: set<string>) {
    suites != {} && forall s | s in suites :: s in t.suites && MeetsSuite(hash, t.suites[s])
  }

  /** The tool meets all suites that are required of it. */
  ghost predicate MeetsItsTests(t: Tables, hash: ToolDefinition) {
    hash in t.required && MeetsSuites(t, hash, t.required[hash])
  }

  /** What was required when an eligibility was read still is, and is met. */
  ghost predicate PassedTrue(t: Tables, passed: Passed) {
    forall p | p in passed :: p.0 in t.required && p.1 <= t.required[p.0] && MeetsSuites(t, p.0, p.1)
  }

  ghost predicate Tested(passed: Passed, hash: ToolDefinition) { exists p | p in passed :: p.0 == hash }

  ghost predicate ReportsTrue(t: Tables) {
    forall i | 0 <= i < |t.evaluations| && t.evaluations[i].passed ::
      t.evaluations[i].suite in t.suites && MeetsSuite(t.evaluations[i].hash, t.suites[t.evaluations[i].suite])
  }

  ghost predicate RetirementFenced(t: Tables) {
    && (forall g | g in t.grants && t.grants[g].hash in t.retired :: t.grants[g].revoked)
    && (forall n | n in t.activations && t.activations[n].hash in t.retired :: !t.activations[n].active)
  }

  ghost predicate ActivationsGranted(t: Tables) {
    forall n | n in t.activations ::
      var a := t.activations[n];
      a.hash.name == n && a.grantId in t.grants && t.grants[a.grantId].hash == a.hash
  }

  ghost predicate TablesOk(t: Tables) {
    && RetirementFenced(t) && ActivationsGranted(t) && ReportsTrue(t)
    && forall h | h in t.required :: Nameable(t, t.required[h])
  }

  ghost predicate ActivationsTested(t: Tables, passed: Passed) {
    forall n | n in t.activations :: Tested(passed, t.activations[n].hash)
  }

  ghost predicate SessionOk(t: Tables, passed: Passed, s: Session) {
    match s
    case Naming(_, rest) => forall i | 0 <= i < |rest| :: rest[i] in t.suites
    case CasesRead(hash, suite, cases) => suite in t.suites && t.suites[suite] == cases
    case EligibilityRead(a) => Tested(passed, a.hash)
    case ToolRead(name, _, hash, g) =>
      g in t.grants && t.grants[g].hash == hash && hash.name == name && Tested(passed, hash)
    case ScopeRead(name, _, hash, g, scope) =>
      && g in t.grants && t.grants[g].hash == hash && hash.name == name && t.grants[g].scope == scope
      && Tested(passed, hash)
    case Evaluated(name, inputs, hash, g, result) =>
      && g in t.grants && t.grants[g].hash == hash && hash.name == name && Tested(passed, hash)
      && result.tool == hash && result.outputScope <= t.grants[g].scope
      && (forall l :: l in result.outputScope <==> exists i | 0 <= i < |inputs| :: l in inputs[i].scope)
      && Meaning(hash.expression, Arr(Values(inputs)), None) == Some(result.value)
    case _ => true
  }

  ghost predicate Inv(w: World) {
    && TablesOk(w.tables) && PassedTrue(w.tables, w.passed) && ActivationsTested(w.tables, w.passed)
    && forall c | c in w.sessions :: SessionOk(w.tables, w.passed, w.sessions[c])
  }

  lemma MeetsStable(t: Tables, u: Tables, hash: ToolDefinition, suites: set<string>)
    requires Grows(t, u) && MeetsSuites(t, hash, suites)
    ensures MeetsSuites(u, hash, suites)
  {
  }

  lemma SessionStable(t: Tables, u: Tables, before: Passed, after: Passed, s: Session)
    requires Grows(t, u) && before <= after && SessionOk(t, before, s)
    ensures SessionOk(u, after, s)
  {
  }

  lemma PassedSuiteIsMet(hash: ToolDefinition, cases: seq<Case>, text: Serializer, interrupts: Interrupts)
    requires SuitePasses(hash, cases, text, interrupts)
    ensures MeetsSuite(hash, cases)
  {
    forall i | 0 <= i < |cases|
      ensures Meaning(hash.expression, Arr(Values(cases[i].inputs)), None) == Some(cases[i].expected)
    {
      assert Passes(hash, cases[i], text, interrupts.stops(i));
      ExecutionMeansReference(hash, cases[i].inputs, text, MAX_FUEL, RunLimits(interrupts.stops(i)));
    }
  }

  lemma EligibleMeetsItsTests(t: Tables, hash: ToolDefinition)
    requires ReportsTrue(t) && Eligible(t, hash)
    ensures MeetsItsTests(t, hash)
  {
    forall s | s in t.required[hash] ensures s in t.suites && MeetsSuite(hash, t.suites[s]) {
      assert SuiteHistoryClean(t, hash, s);
      var i :| 0 <= i < |t.evaluations| && t.evaluations[i] == Report(hash, s, true);
    }
  }

  // Each write keeps the tables' part of the invariant.

  lemma ReportsKept(t: Tables, u: Tables)
    requires ReportsTrue(t) && Grows(t, u) && u.evaluations == t.evaluations
    ensures ReportsTrue(u)
  {
  }

  lemma AppendKeeps(t: Tables, r: Report)
    requires TablesOk(t)
    requires r.passed ==> r.suite in t.suites && MeetsSuite(r.hash, t.suites[r.suite])
    ensures TablesOk(AppendReport(t, r))
  {
  }

  lemma ActivateFences(t: Tables, a: Approval, now: int)
    requires RetirementFenced(t) && ActivationsGranted(t)
    ensures var u := StoreActivation(t, a, now).0; RetirementFenced(u) && ActivationsGranted(u)
  {
  }

  lemma ActivateKeeps(t: Tables, a: Approval, now: int)
    requires TablesOk(t)
    ensures TablesOk(StoreActivation(t, a, now).0)
  {
    ActivateGrows(t, a, now);
    ActivateFences(t, a, now);
    ReportsKept(t, StoreActivation(t, a, now).0);
  }

  lemma RetireKeeps(t: Tables, hash: ToolDefinition)
    requires TablesOk(t)
    ensures TablesOk(Retire(t, hash))
  {
    var u := Retire(t, hash);
    RetireGrows(t, hash);
    ReportsKept(t, u);
    assert RetirementFenced(u) && ActivationsGranted(u);
    assert forall n | n in u.activations :: u.activations[n].hash == t.activations[n].hash;
  }

  lemma GrantsKeep(t: Tables, u: Tables)
    requires TablesOk(t) && Grows(t, u)
    requires u == t.(grants := u.grants)
    requires forall g | g in u.grants && u.grants[g].hash in t.retired :: u.grants[g].revoked
    ensures TablesOk(u)
  {
    ReportsKept(t, u);
  }

  lemma AddingKeeps(t: Tables, u: Tables)
    requires TablesOk(t) && Adds(t, u)
    ensures TablesOk(u)
  {
    ReportsKept(t, u);
  }

  lemma IssueKeeps(t: Tables, id: string, hash: ToolDefinition, scope: set<string>, expiresAt: Option<int>, now: int)
    requires TablesOk(t)
    ensures TablesOk(IssueGrant(t, id, hash, scope, expiresAt, now).0)
  {
    IssueGrows(t, id, hash, scope, expiresAt, now);
    GrantsKeep(t, IssueGrant(t, id, hash, scope, expiresAt, now).0);
  }

  lemma AdvanceKeepsTables(w: World, c: int, now: int, interrupts: Interrupts, text: Serializer)
    requires Inv(w)
    ensures TablesOk(Advance(w, c, now, interrupts, text).tables)
  {
    match w.At(c) {
      case CasesRead(hash, suite, cases) =>
        if SuitePasses(hash, cases, text, interrupts) { PassedSuiteIsMet(hash, cases, text, interrupts); }
        AppendKeeps(w.tables, Report(hash, suite, SuitePasses(hash, cases, text, interrupts)));
      case EligibilityRead(a) => ActivateKeeps(w.tables, a, now);
      case SuiteChecked(id, cases) =>
        InsertSuiteAdds(w.tables, id, cases);
        AddingKeeps(w.tables, InsertSuite(w.tables, id, cases));
      case Naming(hash, rest) =>
        if rest != [] {
          InsertRequiredAdds(w.tables, hash, rest[0]);
          AddingKeeps(w.tables, InsertRequired(w.tables, hash, rest[0]).0);
        }
      case _ =>
    }
  }

  lemma ChangeKeepsTables(t: Tables, change: Change, text: Serializer)
    requires TablesOk(t)
    ensures TablesOk(Changed(t, change, text))
  {
    match change {
      case DoAssess(hash, _, _) => RetireKeeps(t, hash);
      case DoReject(hash) => RetireKeeps(t, hash);
      case DoIssue(id, hash, scope, expiresAt, now) => IssueKeeps(t, id, hash, scope, expiresAt, now);
      case DoRevoke(id) =>
        GrantsGrow(t, Revoke(t, id).0);
        GrantsKeep(t, Revoke(t, id).0);
      case DoRegister(d, evidence) =>
        RegisterAdds(t, d, evidence, text);
        AddingKeeps(t, Register(t, d, evidence, text).0);
    }
  }

  lemma TablesStep(w: World, e: Event, text: Serializer)
    requires Inv(w)
    ensures TablesOk(Step(w, e, text).tables)
  {
    match e {
      case Write(change) => ChangeKeepsTables(w.tables, change, text);
      case Continue(c, now, interrupts) => AdvanceKeepsTables(w, c, now, interrupts, text);
      case _ =>
    }
  }

  /** What was passed stays met; an eligibility just read adds what it read. */
  lemma PassedStep(w: World, e: Event, text: Serializer)
    requires Inv(w)
    ensures PassedTrue(Step(w, e, text).tables, Step(w, e, text).passed)
  {
    var w' := Step(w, e, text);
    StepGrows(w, e, text);
    forall p | p in w'.passed
      ensures p.0 in w'.tables.required && p.1 <= w'.tables.required[p.0] && MeetsSuites(w'.tables, p.0, p.1)
    {
      if p in w.passed {
        MeetsStable(w.tables, w'.tables, p.0, p.1);
      } else {
        EligibleMeetsItsTests(w.tables, p.0);
      }
    }
  }

  lemma ActivationsStep(w: World, e: Event, text: Serializer)
    requires Inv(w)
    ensures ActivationsTested(Step(w, e, text).tables, Step(w, e, text).passed)
  {
    match e {
      case Write(change) => ChangeKeepsActivations(w.tables, change, text);
      case Continue(c, now, interrupts) =>
        AdvanceRemembers(w, c, now, interrupts, text);
        AdvanceKeepsActivations(w, c, now, interrupts, text);
      case _ =>
    }
  }

  lemma AdvanceKeepsActivations(w: World, c: int, now: int, interrupts: Interrupts, text: Serializer)
    requires Inv(w)
    ensures ActivationsTested(Advance(w, c, now, interrupts, text).tables, w.passed)
  {
    match w.At(c) {
      case SuiteChecked(id, cases) => InsertsIssueNothing(w.tables, id, cases, ToolDefinition("", 0, [], Input), "");
      case Naming(hash, rest) => if rest != [] { InsertsIssueNothing(w.tables, "", [], hash, rest[0]); }
      case EligibilityRead(a) => assert SessionOk(w.tables, w.passed, w.At(c));
      case CasesRead(_, _, _) =>
      case _ => AdvanceOnlyMoves(w, c, now, interrupts, text);
    }
  }

  lemma ChangeKeepsActivations(t: Tables, change: Change, text: Serializer)
    ensures var u := Changed(t, change, text);
            forall n | n in u.activations :: n in t.activations && u.activations[n].hash == t.activations[n].hash
  {
  }

  /** A connection's own step leaves it where its reads still hold. */
  lemma AdvanceKeepsSession(w: World, c: int, now: int, interrupts: Interrupts, text: Serializer)
    requires Inv(w)
    ensures var w' := Advance(w, c, now, interrupts, text); SessionOk(w'.tables, w'.passed, w'.At(c))
  {
    match w.At(c) {
      case RetirementRead(a) =>
        if Eligible(w.tables, a.hash) {
          assert (a.hash, w.tables.required[a.hash]) in Advance(w, c, now, interrupts, text).passed;
        }
      case ScopeRead(_, _, _, _, _) => EvaluatingKeepsSession(w, c, now, interrupts, text);
      case Naming(_, _) => NamingKeepsSession(w, c, now, interrupts, text);
      case _ =>
    }
  }

  lemma EvaluatingKeepsSession(w: World, c: int, now: int, interrupts: Interrupts, text: Serializer)
    requires Inv(w) && w.At(c).ScopeRead?
    ensures var w' := Advance(w, c, now, interrupts, text); SessionOk(w'.tables, w'.passed, w'.At(c))
  {
    var s := w.At(c);
    assert SessionOk(w.tables, w.passed, s);
    ExecutionMeansReference(s.hash, s.inputs, text, MAX_FUEL, RunLimits(interrupts.stops(0)));
  }

  lemma NamingKeepsSession(w: World, c: int, now: int, interrupts: Interrupts, text: Serializer)
    requires Inv(w) && w.At(c).Naming?
    ensures var w' := Advance(w, c, now, interrupts, text); SessionOk(w'.tables, w'.passed, w'.At(c))
  {
    var s := w.At(c);
    assert SessionOk(w.tables, w.passed, s);
    if s.rest != [] { InsertsIssueNothing(w.tables, "", [], s.hash, s.rest[0]); }
  }

  lemma AdvanceLeavesOthers(w: World, c: int, now: int, interrupts: Interrupts, text: Serializer, other: int)
    requires other != c
    ensures Advance(w, c, now, interrupts, text).At(other) == w.At(other)
  {
  }

  lemma SessionsStep(w: World, e: Event, text: Serializer)
    requires Inv(w)
    ensures var w' := Step(w, e, text);
            forall c | c in w'.sessions :: SessionOk(w'.tables, w'.passed, w'.sessions[c])
  {
    var w' := Step(w, e, text);
    forall c | c in w'.sessions ensures SessionOk(w'.tables, w'.passed, w'.At(c)) { OneSessionStep(w, e, text, c); }
    assert forall c | c in w'.sessions :: w'.At(c) == w'.sessions[c];
  }

  lemma OneSessionStep(w: World, e: Event, text: Serializer, c: int)
    requires Inv(w)
    ensures var w' := Step(w, e, text); SessionOk(w'.tables, w'.passed, w'.At(c))
  {
    var w' := Step(w, e, text);
    StepGrows(w, e, text);
    SessionStable(w.tables, w'.tables, w.passed, w'.passed, w.At(c));
    if e.Continue? {
      if e.conn == c {
        AdvanceKeepsSession(w, c, e.now, e.interrupts, text);
      } else {
        AdvanceLeavesOthers(w, e.conn, e.now, e.interrupts, text, c);
      }
    }
  }

  lemma {:induction false} RunKeepsInv(w: World, events: seq<Event>, text: Serializer)
    requires Inv(w)
    ensures Inv(Run(w, events, text))
    decreases |events|
  {
    if events != [] {
      TablesStep(w, events[0], text);
      PassedStep(w, events[0], text);
      ActivationsStep(w, events[0], text);
      SessionsStep(w, events[0], text);
      RunKeepsInv(Step(w, events[0], text), events[1..], text);
    }
  }

  // The results.

  /** No two suites hold the same cases. */
  ghost predicate SuitesDiffer(t: Tables) {
    forall i, j | i in t.suites && j in t.suites && t.suites[i] == t.suites[j] :: i == j
  }

  lemma InsertKeepsSuitesApart(t: Tables, id: string, cases: seq<Case>)
    requires SuitesDiffer(t)
    ensures SuitesDiffer(InsertSuite(t, id, cases))
  {
    assert forall k | k in t.suites :: t.suites[k] in t.suites.Values;
  }

  lemma StepKeepsSuitesApart(w: World, e: Event, text: Serializer)
    requires SuitesDiffer(w.tables)
    ensures SuitesDiffer(Step(w, e, text).tables)
  {
    if e.Continue? && w.At(e.conn).SuiteChecked? {
      InsertKeepsSuitesApart(w.tables, w.At(e.conn).id, w.At(e.conn).cases);
    }
  }

  lemma {:induction false} RunKeepsSuitesApart(w: World, events: seq<Event>, text: Serializer)
    requires SuitesDiffer(w.tables)
    ensures SuitesDiffer(Run(w, events, text).tables)
    decreases |events|
  {
    if events != [] {
      StepKeepsSuitesApart(w, events[0], text);
      RunKeepsSuitesApart(Step(w, events[0], text), events[1..], text);
    }
  }

  /** A suite that has passed its check is answered Ok. Whatever happened since,
      its insert leaves its cases under its id exactly when no other cases have
      come to stand under that id, and no other id holds the same; and never are
      two suites alike. */
  lemma AcceptedSuiteIsStored(events: seq<Event>, text: Serializer, c: int, now: int, interrupts: Interrupts)
    ensures var w := Run(START, events, text);
            var t, u := w.tables, Step(w, Continue(c, now, interrupts), text).tables;
            && SuitesDiffer(u)
            && (w.At(c).SuiteChecked? ==>
                  var id, cases := w.At(c).id, w.At(c).cases;
                  (id in u.suites && u.suites[id] == cases <==>
                    && (id in t.suites ==> t.suites[id] == cases)
                    && forall k | k in t.suites && t.suites[k] == cases :: k == id))
  {
    RunKeepsSuitesApart(START, events, text);
    var w := Run(START, events, text);
    StepKeepsSuitesApart(w, Continue(c, now, interrupts), text);
    var t := w.tables;
    if w.At(c).SuiteChecked? && w.At(c).id !in t.suites && w.At(c).cases in t.suites.Values {
      var k :| k in t.suites && t.suites[k] == w.At(c).cases;
    }
    assert forall k | k in t.suites :: t.suites[k] in t.suites.Values;
  }

  const NEVER := Interrupts(None, i => None)

  lemma RunTwo(w: World, a: Event, b: Event, text: Serializer)
    ensures Run(w, [a, b], text) == Step(Step(w, a, text), b, text)
  {
    assert [a, b][1..] == [b] && [b][1..] == [];
    assert Run(Step(w, a, text), [b], text) == Step(Step(w, a, text), b, text);
  }

  /** Two connections protect different cases under one id. Both checks pass and
      both are answered Ok, and only the first cases are stored. */
  lemma SameIdIsStoredOnce(a: Case, b: Case, text: Serializer)
    requires CaseFits(a) && CaseFits(b) && a != b
    ensures var checked := Run(START, [BeginProtection(1, "id", [a], 0), BeginProtection(2, "id", [b], 0)], text);
            && checked.At(1) == SuiteChecked("id", [a]) && checked.At(2) == SuiteChecked("id", [b])
            && var w := Run(checked, [Continue(1, 0, NEVER), Continue(2, 0, NEVER)], text);
               w.tables.suites == map["id" := [a]]
  {
    RunTwo(START, BeginProtection(1, "id", [a], 0), BeginProtection(2, "id", [b], 0), text);
    var checked := Step(Step(START, BeginProtection(1, "id", [a], 0), text), BeginProtection(2, "id", [b], 0), text);
    RunTwo(checked, Continue(1, 0, NEVER), Continue(2, 0, NEVER), text);
  }

  /** In every reachable state a retired tool has only revoked grants and no
      active activation, and each activation is under its own tool's name and
      grant. */
  lemma RetirementFence(events: seq<Event>, text: Serializer)
    ensures var t := Run(START, events, text).tables;
            RetirementFenced(t) && ActivationsGranted(t)
  {
    RunKeepsInv(START, events, text);
  }

  /** Once a tool is retired, no invocation of it that is still running, and
      none begun later, ever returns a result, whatever happens in between. */
  lemma RetiredNeverReturns(before: seq<Event>, after: seq<Event>, text: Serializer, hash: ToolDefinition, c: int,
      now: int)
    requires hash in Run(START, before, text).tables.retired
    ensures var w := Run(START, before + after, text);
            w.At(c).Evaluated? && w.At(c).hash == hash ==> Returned(w, c, now).Err?
  {
    RunAppend(START, before, after, text);
    RunGrows(Run(START, before, text), after, text);
    RunKeepsInv(START, before + after, text);
  }

  /** What an invocation returns is what its tool, the one of the name that was
      asked for, means on the given inputs; its scope is exactly the inputs' labels
      and within the grant; and the tool meets all that was required of it when its
      eligibility was read. */
  lemma ReturnedResultIsTested(events: seq<Event>, text: Serializer, c: int, now: int)
    ensures var w := Run(START, events, text);
            Returned(w, c, now).Ok? ==>
              var s := w.At(c);
              && s.grantId in w.tables.grants && w.tables.grants[s.grantId].hash == s.hash
              && s.hash !in w.tables.retired && s.hash.name == s.name && Returned(w, c, now).value.tool == s.hash
              && (exists suites :: (s.hash, suites) in w.passed && MeetsSuites(w.tables, s.hash, suites))
              && var labels := Returned(w, c, now).value.outputScope;
              && labels <= w.tables.grants[s.grantId].scope
              && (forall l :: l in labels <==> exists i | 0 <= i < |s.inputs| :: l in s.inputs[i].scope)
              && Meaning(s.hash.expression, Arr(Values(s.inputs)), None) == Some(Returned(w, c, now).value.value)
  {
    RunKeepsInv(START, events, text);
    var w := Run(START, events, text);
    if Returned(w, c, now).Ok? {
      var p :| p in w.passed && p.0 == w.At(c).hash;
      assert (w.At(c).hash, p.1) in w.passed;
    }
  }

  /** A tool that was ever activated meets, for ever after, every protected case
      of the suites that were required of it when its eligibility was read, of
      which there were some and all of which stay required; and the scope behind
      its name never changes. */
  lemma ActiveToolsMeetTheirTestsForEver(before: seq<Event>, after: seq<Event>, text: Serializer, name: string)
    returns (suites: set<string>)
    requires name in Run(START, before, text).tables.activations
    ensures var past := Run(START, before, text);
            var t := Run(START, before + after, text).tables;
            var hash := past.tables.activations[name].hash;
            && (hash, suites) in past.passed
            && MeetsSuites(t, hash, suites) && suites <= RequiredOf(past.tables, hash) && suites <= RequiredOf(t, hash)
            && name in t.activations && t.activations[name].hash.inputScope == hash.inputScope
  {
    var past := Run(START, before, text);
    RunAppend(START, before, after, text);
    RunGrows(past, after, text);
    RunKeepsInv(START, before, text);
    var hash := past.tables.activations[name].hash;
    var p :| p in past.passed && p.0 == hash;
    suites := p.1;
    assert p == (hash, suites);
    MeetsStable(past.tables, Run(past, after, text).tables, hash, suites);
  }
}
