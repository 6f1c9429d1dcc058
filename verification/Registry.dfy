/** The durable registry of tools: candidates, protected suites, evaluations,
    grants, activations and retirements. `ProtectSuite`, `DesignateRequired` and
    an activation are several statements, which `RegistryRuns` takes apart; every
    other function on the tables is one statement or one transaction. `Store`
    performs them in place. A definition stands for its own hash, a suite's cases
    for theirs. */
module Registry {
  import opened Wrappers
  import opened Json
  import opened ToolLanguage
  import opened Execution
  import Metering
  import Sets

  datatype Refusal = NotFound | NotEligible | ApprovalMismatch | Refused(error: Error) | Database

  datatype Case = Case(inputs: seq<ScopedInput>, expected: Value)

  datatype Report = Report(hash: ToolDefinition, suite: string, passed: bool)

  datatype Grant = Grant(hash: ToolDefinition, scope: set<string>, expiresAt: Option<int>, revoked: bool) {
    predicate Valid(now: int) { !revoked && (expiresAt.Some? ==> now < expiresAt.value) }
  }

  /** What a caller holds once a grant was issued to it. */
  datatype Approval = Approval(grantId: string, hash: ToolDefinition, scope: set<string>)

  datatype Activation = Activation(hash: ToolDefinition, grantId: string, active: bool)

  datatype Tables = Tables(
    candidates: map<ToolDefinition, string>,
    suites: map<string, seq<Case>>,
    required: map<ToolDefinition, set<string>>,
    evaluations: seq<Report>,
    grants: map<string, Grant>,
    activations: map<string, Activation>,
    retired: set<ToolDefinition>)

  const EMPTY: Tables := Tables(map[], map[], map[], [], map[], map[], {})

  // Suites and evaluations.

  predicate CaseFits(c: Case) {
    && |c.inputs| <= MAX_INPUT_RECORDS
    && forall i | 0 <= i < |c.inputs| ::
         && DepthOf(c.inputs[i].value) <= MAX_VALUE_DEPTH && SizeOf(c.inputs[i].value) <= MAX_DEFINITION_BYTES
         && ScopeBytes(c.inputs[i].scope) <= MAX_DEFINITION_BYTES
         && DepthOf(c.expected) <= MAX_VALUE_DEPTH && SizeOf(c.expected) <= MAX_OUTPUT_BYTES
  }

  function ScopeBytes(scope: Scope): nat {
    if scope == [] then 0 else |scope[0]| + ScopeBytes(scope[1..])
  }

  /** What is checked before a suite is stored: its form, and that no other
      cases stand under its id. */
  function CheckSuite(t: Tables, id: string, cases: seq<Case>, encodedBytes: nat): Result<(), Refusal> {
    if id == "" || cases == [] then Err(Refused(InvalidDefinition))
    else if |cases| > MAX_INPUT_RECORDS || (exists i | 0 <= i < |cases| :: !CaseFits(cases[i]))
      || encodedBytes > MAX_DEFINITION_BYTES
    then Err(Refused(Limit))
    else if id in t.suites && t.suites[id] != cases then Err(ApprovalMismatch)
    else Ok(())
  }

  /** Ids and cases are both unique in the table; an insert that would repeat
      either is ignored. */
  function InsertSuite(t: Tables, id: string, cases: seq<Case>): Tables {
    if id in t.suites || cases in t.suites.Values then t else t.(suites := t.suites[id := cases])
  }

  /** A suite id keeps its cases for ever; cases already stored under another id
      are silently not stored again. */
  function ProtectSuite(t: Tables, id: string, cases: seq<Case>, encodedBytes: nat): (Tables, Result<(), Refusal>) {
    var check := CheckSuite(t, id, cases, encodedBytes);
    if check.Err? then (t, check) else (InsertSuite(t, id, cases), Ok(()))
  }

  function Register(t: Tables, d: ToolDefinition, evidence: string, text: Serializer): (Tables, Result<(), Refusal>) {
    if |evidence| > MAX_DEFINITION_BYTES then (t, Err(Refused(Limit)))
    else
      var valid := Validated(d, text);
      if valid.Err? then (t, Err(Refused(valid.error)))
      else if d in t.candidates then (t, Ok(()))
      else (t.(candidates := t.candidates[d := evidence]), Ok(()))
  }

  /** The mandatory suites of a candidate are named once. */
  function DesignateRequired(t: Tables, hash: ToolDefinition, suites: set<string>): (Tables, Result<(), Refusal>) {
    if suites == {} then (t, Err(NotEligible))
    else if hash !in t.candidates then (t, Err(NotFound))
    else if hash in t.required then (t, if t.required[hash] == suites then Ok(()) else Err(ApprovalMismatch))
    else if !(suites <= t.suites.Keys) then (t, Err(NotFound))
    else (t.(required := t.required[hash := suites]), Ok(()))
  }

  function RequiredOf(t: Tables, hash: ToolDefinition): set<string> {
    if hash in t.required then t.required[hash] else {}
  }

  /** One row of a candidate's required suites; a row that is there already is
      refused. */
  function InsertRequired(t: Tables, hash: ToolDefinition, suite: string): (Tables, Result<(), Refusal>) {
    if suite in RequiredOf(t, hash) then (t, Err(Database))
    else (t.(required := t.required[hash := RequiredOf(t, hash) + {suite}]), Ok(()))
  }

  function AppendReport(t: Tables, r: Report): Tables { t.(evaluations := t.evaluations + [r]) }

  predicate Passes(d: ToolDefinition, c: Case, text: Serializer, stop: Option<nat>) {
    var r := Executed(d, c.inputs, text, MAX_FUEL, RunLimits(stop));
    r.Ok? && r.value.value == c.expected
  }

  function RunLimits(stop: Option<nat>): Metering.Limits { Metering.Limits(MAX_CHARGED_MEMORY, stop) }

  /** When interruptions fall during a suite: before which case the suite's own
      deadline is noticed, and at which operation within each case. */
  datatype Interrupts = Interrupts(halt: Option<nat>, stops: nat -> Option<nat>)

  predicate SuitePasses(d: ToolDefinition, cases: seq<Case>, text: Serializer, interrupts: Interrupts) {
    && cases != []
    && (interrupts.halt.Some? ==> |cases| <= interrupts.halt.value)
    && forall i | 0 <= i < |cases| :: Passes(d, cases[i], text, interrupts.stops(i))
  }

  method TryCase(d: ToolDefinition, c: Case, text: Serializer, stop: Option<nat>) returns (ok: bool)
    ensures ok <==> Passes(d, c, text, stop)
  {
    var r := Execute(d, c.inputs, text, stop);
    ok := r.Ok? && r.value.value == c.expected;
  }

  method EvaluateCases(d: ToolDefinition, cases: seq<Case>, text: Serializer, interrupts: Interrupts)
      returns (passed: bool)
    ensures passed <==> SuitePasses(d, cases, text, interrupts)
  {
    var failures := 0;
    for i := 0 to |cases|
      invariant failures >= 0
      invariant interrupts.halt.Some? ==> i <= interrupts.halt.value
      invariant failures == 0 <==> forall k | 0 <= k < i :: Passes(d, cases[k], text, interrupts.stops(k))
    {
      if interrupts.halt.Some? && interrupts.halt.value <= i {
        return false;
      }
      var ok := TryCase(d, cases[i], text, interrupts.stops(i));
      if !ok {
        failures := failures + 1;
      }
    }
    passed := failures == 0 && cases != [];
  }

  // Grants, activation and retirement.

  function IssueGrant(t: Tables, id: string, hash: ToolDefinition, scope: set<string>, expiresAt: Option<int>,
      now: int): (Tables, Result<Approval, Refusal>)
  {
    if expiresAt.Some? && expiresAt.value <= now then (t, Err(ApprovalMismatch))
    else if hash !in t.candidates then (t, Err(NotFound))
    else if !(Labels(hash.inputScope) <= scope) then (t, Err(ApprovalMismatch))
    else if hash in t.retired then (t, Err(NotEligible))
    else if id in t.grants then (t, Err(Database))
    else (t.(grants := t.grants[id := Grant(hash, scope, expiresAt, false)]), Ok(Approval(id, hash, scope)))
  }

  function Revoke(t: Tables, id: string): (Tables, Result<(), Refusal>) {
    if id !in t.grants then (t, Err(NotFound))
    else (t.(grants := t.grants[id := t.grants[id].(revoked := true)]), Ok(()))
  }

  predicate GrantMatches(t: Tables, a: Approval, now: int) {
    && a.grantId in t.grants
    && var g := t.grants[a.grantId];
    && g.hash == a.hash && g.scope == a.scope && g.Valid(now) && Labels(a.hash.inputScope) <= g.scope
  }

  predicate SuiteHistoryClean(t: Tables, hash: ToolDefinition, suite: string) {
    Report(hash, suite, true) in t.evaluations && Report(hash, suite, false) !in t.evaluations
  }

  predicate Eligible(t: Tables, hash: ToolDefinition) {
    hash in t.required && t.required[hash] != {} && forall s | s in t.required[hash] :: SuiteHistoryClean(t, hash, s)
  }

  /** The immediate transaction that ends an activation. */
  function StoreActivation(t: Tables, a: Approval, now: int): (Tables, Result<(), Refusal>) {
    var name := a.hash.name;
    if !(a.grantId in t.grants && t.grants[a.grantId].hash == a.hash && t.grants[a.grantId].Valid(now))
      || a.hash in t.retired
    then (t, Err(ApprovalMismatch))
    else if name in t.activations && t.activations[name].hash.inputScope != a.hash.inputScope then (t, Err(NotEligible))
    else (t.(activations := t.activations[name := Activation(a.hash, a.grantId, true)]), Ok(()))
  }

  /** A reported regression or retirement: one transaction over three tables. */
  function Retire(t: Tables, hash: ToolDefinition): Tables {
    t.(retired := t.retired + {hash},
       grants := map g | g in t.grants ::
           if t.grants[g].hash == hash then t.grants[g].(revoked := true) else t.grants[g],
       activations := map n | n in t.activations ::
         if t.activations[n].hash == hash then t.activations[n].(active := false) else t.activations[n])
  }

  function ActiveToolGrant(t: Tables, name: string): Result<Activation, Refusal> {
    if name in t.activations && t.activations[name].active then Ok(t.activations[name]) else Err(NotFound)
  }

  function InvocationScope(t: Tables, grantId: string, inputs: seq<ScopedInput>, hash: ToolDefinition,
      now: int): Result<set<string>, Refusal>
  {
    if grantId !in t.grants then Err(Database)
    else
      var g := t.grants[grantId];
      if g.Valid(now) && AllLabels(inputs) <= g.scope && Labels(hash.inputScope) <= g.scope
      then Ok(g.scope) else Err(ApprovalMismatch)
  }

  predicate GrantStillValid(t: Tables, grantId: string, now: int) {
    grantId in t.grants && t.grants[grantId].Valid(now)
  }

  /** The registry itself, its tables updated in place. */
  class Store {
    var candidates: map<ToolDefinition, string>
    var suites: map<string, seq<Case>>
    var required: map<ToolDefinition, set<string>>
    var evaluations: seq<Report>
    var grants: map<string, Grant>
    var activations: map<string, Activation>
    var retired: set<ToolDefinition>

    function Contents(): Tables
      reads this
    {
      Tables(candidates, suites, required, evaluations, grants, activations, retired)
    }

    constructor ()
      ensures Contents() == EMPTY
    {
      candidates, suites, required, evaluations := map[], map[], map[], [];
      grants, activations, retired := map[], map[], {};
    }

    method Protect(id: string, cases: seq<Case>, encodedBytes: nat) returns (r: Result<(), Refusal>)
      modifies this`suites
      ensures (Contents(), r) == ProtectSuite(old(Contents()), id, cases, encodedBytes)
    {
      if id == "" || cases == [] {
        return Err(Refused(InvalidDefinition));
      }
      if |cases| > MAX_INPUT_RECORDS || (exists i | 0 <= i < |cases| :: !CaseFits(cases[i]))
        || encodedBytes > MAX_DEFINITION_BYTES {
        return Err(Refused(Limit));
      }
      if id in suites && suites[id] != cases {
        return Err(ApprovalMismatch);
      }
      if id !in suites && cases !in suites.Values {
        suites := suites[id := cases];
      }
      r := Ok(());
    }

    method Designate(hash: ToolDefinition, names: set<string>) returns (r: Result<(), Refusal>)
      modifies this`required
      ensures (Contents(), r) == DesignateRequired(old(Contents()), hash, names)
    {
      if names == {} {
        return Err(NotEligible);
      }
      if hash !in candidates {
        return Err(NotFound);
      }
      if hash in required {
        return if required[hash] == names then Ok(()) else Err(ApprovalMismatch);
      }
      if !(names <= suites.Keys) {
        return Err(NotFound);
      }
      var rest := names;
      while rest != {}
        invariant rest <= names
        invariant required == if rest == names then old(required) else old(required)[hash := names - rest]
      {
        var suite := Sets.AnyOf(rest);
        assert RequiredOf(Contents(), hash) == names - rest;
        required := InsertRequired(Contents(), hash, suite).0.required;
        assert names - rest + {suite} == names - (rest - {suite});
        rest := rest - {suite};
      }
      assert names - {} == names;
      r := Ok(());
    }

    method Evaluate(hash: ToolDefinition, suite: string, text: Serializer, interrupts: Interrupts)
        returns (r: Result<bool, Refusal>)
      modifies this`evaluations
      ensures r.Err? ==>
                r.error == NotFound && (hash !in candidates || suite !in suites) && Contents() == old(Contents())
      ensures r.Ok? ==>
                && hash in candidates && suite in suites
                && r.value == SuitePasses(hash, suites[suite], text, interrupts)
                && Contents() == AppendReport(old(Contents()), Report(hash, suite, r.value))
    {
      if hash !in candidates || suite !in suites {
        return Err(NotFound);
      }
      var passed := EvaluateCases(hash, suites[suite], text, interrupts);
      evaluations := evaluations + [Report(hash, suite, passed)];
      r := Ok(passed);
    }

    method Activate(a: Approval, now: int) returns (r: Result<(), Refusal>)
      modifies this`activations
      ensures var t := old(Contents());
              if a.hash !in t.candidates then Contents() == t && r == Err(NotFound)
              else if !GrantMatches(t, a, now) then Contents() == t && r == Err(ApprovalMismatch)
              else if a.hash in t.retired || !Eligible(t, a.hash) then Contents() == t && r == Err(NotEligible)
              else (Contents(), r) == StoreActivation(t, a, now)
      ensures r.Ok? <==>
                && a.hash in candidates && a.grantId in grants && a.hash !in retired
                && var g := grants[a.grantId];
                && g.hash == a.hash && g.scope == a.scope && (forall l | l in a.hash.inputScope :: l in g.scope)
                && !g.revoked && (g.expiresAt.Some? ==> now < g.expiresAt.value)
                && a.hash in required && required[a.hash] != {}
                && (forall s | s in required[a.hash] ::
                      Report(a.hash, s, true) in evaluations && Report(a.hash, s, false) !in evaluations)
                && var taken := old(activations);
                && (a.hash.name in taken ==> taken[a.hash.name].hash.inputScope == a.hash.inputScope)
      ensures r.Ok? ==> activations == old(activations)[a.hash.name := Activation(a.hash, a.grantId, true)]
    {
      if a.hash !in candidates {
        return Err(NotFound);
      }
      if !GrantMatches(Contents(), a, now) {
        return Err(ApprovalMismatch);
      }
      if a.hash in retired || !Eligible(Contents(), a.hash) {
        return Err(NotEligible);
      }
      var name := a.hash.name;
      if name in activations && activations[name].hash.inputScope != a.hash.inputScope {
        return Err(NotEligible);
      }
      activations := activations[name := Activation(a.hash, a.grantId, true)];
      r := Ok(());
    }

    method Assess(hash: ToolDefinition, scope: Scope, retires: bool) returns (r: Result<(), Refusal>)
      modifies this
      ensures r.Ok? <==> hash in old(candidates) && hash.inputScope == scope
      ensures Contents() == if r.Ok? && retires then Retire(old(Contents()), hash) else old(Contents())
    {
      if hash !in candidates {
        return Err(NotFound);
      }
      if hash.inputScope != scope {
        return Err(ApprovalMismatch);
      }
      if retires {
        retired := retired + {hash};
        grants := map g | g in grants :: if grants[g].hash == hash then grants[g].(revoked := true) else grants[g];
        activations := map n | n in activations ::
            if activations[n].hash == hash then activations[n].(active := false) else activations[n];
      }
      r := Ok(());
    }

    /** A whole invocation when no other connection writes meanwhile. */
    method Invoke(name: string, inputs: seq<ScopedInput>, text: Serializer, stop: Option<nat>, now: int)
        returns (r: Result<ToolResult, Refusal>)
      ensures r.Ok? <==>
                && name in activations && activations[name].active
                && var d, id := activations[name].hash, activations[name].grantId;
                && d in candidates && id in grants
                && var g := grants[id];
                && !g.revoked && (g.expiresAt.Some? ==> now < g.expiresAt.value)
                && (forall l | l in d.inputScope :: l in g.scope)
                && (forall i, l | 0 <= i < |inputs| && l in inputs[i].scope :: l in g.scope)
                && Executed(d, inputs, text, MAX_FUEL, RunLimits(stop)).Ok?
      ensures r.Ok? ==>
                && var d := activations[name].hash;
                && r.value.tool == d
                && Meaning(d.expression, Arr(Values(inputs)), None) == Some(r.value.value)
                && (forall l :: l in r.value.outputScope <==> exists i | 0 <= i < |inputs| :: l in inputs[i].scope)
    {
      var active :- ActiveToolGrant(Contents(), name);
      if active.hash !in candidates {
        return Err(NotFound);
      }
      var scope :- InvocationScope(Contents(), active.grantId, inputs, active.hash, now);
      var result := Execute(active.hash, inputs, text, stop);
      if result.Err? {
        return Err(Refused(result.error));
      }
      ExecutionMeansReference(active.hash, inputs, text, MAX_FUEL, RunLimits(stop));
      if !(result.value.outputScope <= scope) || !GrantStillValid(Contents(), active.grantId, now) {
        return Err(ApprovalMismatch);
      }
      r := Ok(result.value);
    }
  }

  /** Protecting the same cases again under another id answers Ok and stores
      nothing. */
  lemma DuplicateSuiteIsNotStored(c: Case)
    requires CaseFits(c)
    ensures var t := ProtectSuite(EMPTY, "first", [c], 0).0;
            ProtectSuite(t, "second", [c], 0) == (t, Ok(())) && "second" !in t.suites
  {
    var t := ProtectSuite(EMPTY, "first", [c], 0).0;
    assert t.suites["first"] == [c];
  }

  /** No more than ten thousand inputs, each within bounds with its scope; and the
      expected value within its own, but only where there is an input. */
  predicate Bounded(c: Case) {
    && |c.inputs| <= 10_000
    && (forall k | 0 <= k < |c.inputs| :: InputBounded(c.inputs[k]))
    && (|c.inputs| > 0 ==> DepthOf(c.expected) <= 64 && SizeOf(c.expected) <= 1_048_576)
  }

  predicate InputBounded(i: ScopedInput) {
    DepthOf(i.value) <= 64 && SizeOf(i.value) <= 262_144 && ScopeBytes(i.scope) <= 262_144
  }

  lemma FitsExactlyWhenBounded(c: Case)
    ensures CaseFits(c) <==> Bounded(c)
  {
    if CaseFits(c) {
      forall k | 0 <= k < |c.inputs| ensures InputBounded(c.inputs[k]) {
        assert DepthOf(c.inputs[k].value) <= MAX_VALUE_DEPTH;
      }
      if |c.inputs| > 0 { assert DepthOf(c.inputs[0].value) <= MAX_VALUE_DEPTH; }
    }
    if Bounded(c) {
      forall k | 0 <= k < |c.inputs|
        ensures DepthOf(c.inputs[k].value) <= 64 && SizeOf(c.inputs[k].value) <= 262_144
        ensures ScopeBytes(c.inputs[k].scope) <= 262_144
      {
        assert InputBounded(c.inputs[k]);
      }
    }
  }

  /** A suite passes its check exactly if it is named, has one to ten thousand cases,
      each within its bounds, fits 256 KiB in all, and no other cases are under its
      id. */
  lemma SuitePassesCheckExactlyWhen(t: Tables, id: string, cases: seq<Case>, encodedBytes: nat)
    ensures CheckSuite(t, id, cases, encodedBytes).Ok? <==>
              && |id| > 0 && 0 < |cases| <= 10_000 && encodedBytes <= 262_144
              && (forall i | 0 <= i < |cases| :: Bounded(cases[i]))
              && (id in t.suites ==> t.suites[id] == cases)
  {
    forall i | 0 <= i < |cases| ensures CaseFits(cases[i]) <==> Bounded(cases[i]) {
      FitsExactlyWhenBounded(cases[i]);
    }
  }

  /** When nobody writes meanwhile, designating succeeds exactly for some suites of a
      candidate which are what is required of it already or, if nothing is yet, all
      stored; they are then what is required of it, and nothing else changes. */
  lemma DesignatedExactlyWhen(t: Tables, hash: ToolDefinition, suites: set<string>)
    ensures var (u, r) := DesignateRequired(t, hash, suites);
            && (r.Ok? <==>
                  && suites != {} && hash in t.candidates
                  && if hash in t.required then t.required[hash] == suites
                     else forall s | s in suites :: s in t.suites)
            && (r.Ok? ==> u == t.(required := u.required) && u.required == t.required[hash := suites])
            && (r.Err? ==> u == t)
  {
    if hash in t.required { assert t.required[hash := t.required[hash]] == t.required; }
  }
}
