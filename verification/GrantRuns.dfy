/** What grants, assessments and failed tests mean for every later run of a
    registry: when a result is returned, when an activation is written, and what
    is refused for ever. Every condition is on the stored rows themselves. */
module GrantRuns {
  import opened Wrappers
  import opened Json
  import opened ToolLanguage
  import opened Execution
  import opened Registry
  import opened RegistryRuns

  /** A grant covers what its tool reads, and a connection that has read a grant
      for an approval holds exactly that grant. */
  ghost predicate GrantsCover(t: Tables) {
    forall id | id in t.grants ::
      t.grants[id].hash in t.candidates && forall l | l in t.grants[id].hash.inputScope :: l in t.grants[id].scope
  }

  predicate Holds(t: Tables, a: Approval) {
    a.grantId in t.grants && t.grants[a.grantId].hash == a.hash && t.grants[a.grantId].scope == a.scope
  }

  ghost predicate ApprovalHeld(t: Tables, s: Session) {
    match s
    case GrantRead(a) => Holds(t, a)
    case RetirementRead(a) => Holds(t, a)
    case EligibilityRead(a) => Holds(t, a)
    case _ => true
  }

  ghost predicate Issued(w: World) {
    GrantsCover(w.tables) && forall c | c in w.sessions :: ApprovalHeld(w.tables, w.sessions[c])
  }

  lemma ChangeKeepsCover(t: Tables, change: Change, text: Serializer)
    requires GrantsCover(t)
    ensures GrantsCover(Changed(t, change, text))
  {
  }

  lemma AdvanceKeepsCover(w: World, c: int, now: int, interrupts: Interrupts, text: Serializer)
    requires Issued(w)
    ensures var w' := Advance(w, c, now, interrupts, text);
            GrantsCover(w'.tables) && ApprovalHeld(w'.tables, w'.At(c))
  {
  }

  lemma StepKeepsIssued(w: World, e: Event, text: Serializer)
    requires Issued(w)
    ensures Issued(Step(w, e, text))
  {
    var w' := Step(w, e, text);
    StepGrows(w, e, text);
    match e {
      case Write(change) => ChangeKeepsCover(w.tables, change, text);
      case Continue(c, now, interrupts) =>
        AdvanceKeepsCover(w, c, now, interrupts, text);
        forall other | other in w'.sessions ensures ApprovalHeld(w'.tables, w'.sessions[other]) {
          if other != c {
            AdvanceLeavesOthers(w, c, now, interrupts, text, other);
            assert w'.At(other) == w.At(other);
          }
        }
      case _ =>
    }
  }

  lemma {:induction false} RunKeepsIssued(w: World, events: seq<Event>, text: Serializer)
    requires Issued(w)
    ensures Issued(Run(w, events, text))
    decreases |events|
  {
    if events != [] {
      StepKeepsIssued(w, events[0], text);
      RunKeepsIssued(Step(w, events[0], text), events[1..], text);
    }
  }

  // Returning a result.

  /** Wherever a run has come, an invocation that has finished evaluating returns
      its result exactly when its grant is not revoked and, where it has an end,
      the end is still to come. The grant covers every label the inputs carry and
      every label the tool declares. */
  lemma ReturnedExactlyWhenGranted(events: seq<Event>, text: Serializer, c: int, now: int)
    ensures var w := Run(START, events, text);
            var s := w.At(c);
            && (Returned(w, c, now).Ok? <==>
                  && s.Evaluated? && s.grantId in w.tables.grants
                  && var g := w.tables.grants[s.grantId];
                  && !g.revoked && (g.expiresAt.Some? ==> now < g.expiresAt.value))
            && (s.Evaluated? ==>
                  && s.grantId in w.tables.grants
                  && var g := w.tables.grants[s.grantId];
                  && g.hash == s.hash
                  && (forall l | l in s.hash.inputScope :: l in g.scope)
                  && (forall i, l | 0 <= i < |s.inputs| && l in s.inputs[i].scope :: l in g.scope))
  {
    RunKeepsInv(START, events, text);
    RunKeepsIssued(START, events, text);
    var w := Run(START, events, text);
    var s := w.At(c);
    if s.Evaluated? {
      assert SessionOk(w.tables, w.passed, s);
      assert forall i, l | 0 <= i < |s.inputs| && l in s.inputs[i].scope :: l in s.result.outputScope;
    }
  }

  /** Where an invocation goes on. Its tool must be active when it begins; then the
      tool's grant must stand and cover tool and inputs; then the run must succeed
      with a scope that is covered. */
  lemma InvocationGoesOnExactlyWhen(w: World, text: Serializer, c: int, now: int, interrupts: Interrupts)
    ensures forall name, inputs ::
              var s := Step(w, BeginInvocation(c, name, inputs), text).At(c);
              w.At(c).Idle? ==>
                if name in w.tables.activations && w.tables.activations[name].active
                then s == ToolRead(name, inputs, w.tables.activations[name].hash, w.tables.activations[name].grantId)
                else s.Idle?
    ensures var s, next := w.At(c), Step(w, Continue(c, now, interrupts), text).At(c);
            && (s.ToolRead? ==>
                  (next.ScopeRead? <==>
                    && s.hash in w.tables.candidates && s.grantId in w.tables.grants
                    && var g := w.tables.grants[s.grantId];
                    && !g.revoked && (g.expiresAt.Some? ==> now < g.expiresAt.value)
                    && (forall l | l in s.hash.inputScope :: l in g.scope)
                    && (forall i, l | 0 <= i < |s.inputs| && l in s.inputs[i].scope :: l in g.scope))
                  && (next.ScopeRead? ==> next == ScopeRead(s.name, s.inputs, s.hash, s.grantId, next.scope)
                                          && next.scope == w.tables.grants[s.grantId].scope))
            && (s.ScopeRead? ==>
                  var r := Executed(s.hash, s.inputs, text, MAX_FUEL, RunLimits(interrupts.stops(0)));
                  next == if r.Ok? && forall l | l in r.value.outputScope :: l in s.scope
                          then Evaluated(s.name, s.inputs, s.hash, s.grantId, r.value) else Idle)
  {
  }

  // Writing an activation.

  /** Where an activation goes on: its tool must be a candidate when it begins; then
      the grant must be the one approved, stand and cover the tool; then the tool
      must not be retired. Eligibility is next, and then the write. */
  lemma ActivationGoesOnExactlyWhen(w: World, text: Serializer, c: int, now: int, interrupts: Interrupts)
    ensures forall a :: w.At(c).Idle? ==>
              Step(w, BeginActivation(c, a), text).At(c)
              == if a.hash in w.tables.candidates then ActivationAsked(a) else Idle
    ensures var t, s, next := w.tables, w.At(c), Step(w, Continue(c, now, interrupts), text).At(c);
            && (s.ActivationAsked? ==>
                  var a := s.approval;
                  next == if && a.grantId in t.grants && t.grants[a.grantId].hash == a.hash
                             && t.grants[a.grantId].scope == a.scope && !t.grants[a.grantId].revoked
                             && (t.grants[a.grantId].expiresAt.Some? ==> now < t.grants[a.grantId].expiresAt.value)
                             && (forall l | l in a.hash.inputScope :: l in a.scope)
                          then GrantRead(a) else Idle)
            && (s.GrantRead? ==> next == if s.approval.hash in t.retired then Idle else RetirementRead(s.approval))
  {
  }

  /** A connection that has read its eligibility writes the activation exactly
      when, at that moment, the grant is not revoked and not past its end, the
      tool is not retired, and its name is not held by another scope. */
  lemma ActivationIsWritten(events: seq<Event>, text: Serializer, c: int, now: int, interrupts: Interrupts)
    ensures var w := Run(START, events, text);
            var t, u := w.tables, Step(w, Continue(c, now, interrupts), text).tables;
            w.At(c).EligibilityRead? ==>
              var a := w.At(c).approval;
              && a.grantId in t.grants && t.grants[a.grantId].hash == a.hash && t.grants[a.grantId].scope == a.scope
              && var g := t.grants[a.grantId];
              u == if && !g.revoked && (g.expiresAt.Some? ==> now < g.expiresAt.value) && a.hash !in t.retired
                      && (a.hash.name in t.activations ==>
                            t.activations[a.hash.name].hash.inputScope == a.hash.inputScope)
                   then t.(activations := t.activations[a.hash.name := Activation(a.hash, a.grantId, true)])
                   else t
  {
    RunKeepsIssued(START, events, text);
    var w := Run(START, events, text);
    if w.At(c).EligibilityRead? {
      assert ApprovalHeld(w.tables, w.At(c));
    }
  }

  ghost predicate NewlyActive(t: Tables, u: Tables, n: string) {
    n in u.activations && u.activations[n].active && !(n in t.activations && t.activations[n] == u.activations[n])
  }

  lemma StepActivates(w: World, e: Event, text: Serializer, n: string)
    requires NewlyActive(w.tables, Step(w, e, text).tables, n)
    ensures e.Continue? && w.At(e.conn).EligibilityRead?
    ensures var a := w.At(e.conn).approval;
            && Step(w, e, text).tables == StoreActivation(w.tables, a, e.now).0
            && StoreActivation(w.tables, a, e.now).1.Ok?
            && n == a.hash.name
  {
    match e {
      case Write(change) => ChangeActivatesNothing(w.tables, change, text);
      case Continue(c, now, interrupts) => AdvanceActivates(w, c, now, interrupts, text, n);
      case _ =>
    }
  }

  lemma AdvanceActivates(w: World, c: int, now: int, interrupts: Interrupts, text: Serializer, n: string)
    requires NewlyActive(w.tables, Advance(w, c, now, interrupts, text).tables, n)
    ensures w.At(c).EligibilityRead?
    ensures var a := w.At(c).approval;
            && Advance(w, c, now, interrupts, text).tables == StoreActivation(w.tables, a, now).0
            && StoreActivation(w.tables, a, now).1.Ok?
            && n == a.hash.name
  {
    match w.At(c) {
      case SuiteChecked(id, cases) => InsertsIssueNothing(w.tables, id, cases, ToolDefinition("", 0, [], Input), "");
      case Naming(hash, rest) => if rest != [] { InsertsIssueNothing(w.tables, "", [], hash, rest[0]); }
      case EligibilityRead(_) =>
      case CasesRead(_, _, _) =>
      case _ => AdvanceOnlyMoves(w, c, now, interrupts, text);
    }
  }

  lemma ChangeActivatesNothing(t: Tables, change: Change, text: Serializer)
    ensures var u := Changed(t, change, text);
            forall n | n in u.activations && u.activations[n].active ::
              n in t.activations && t.activations[n] == u.activations[n]
  {
  }

  /** Whatever event makes an activation active that was not there before, it is a
      connection's last step, at a moment at which the grant is there, for this
      tool, not revoked and not past its end, and covers the tool's labels; and the
      tool is a candidate, not retired and keeps the scope of its name. */
  lemma ActivationsAreGranted(events: seq<Event>, e: Event, text: Serializer, n: string)
    ensures var t := Run(START, events, text).tables;
            var u := Step(Run(START, events, text), e, text).tables;
            NewlyActive(t, u, n) ==>
              var a := u.activations[n];
              && e.Continue? && a.hash.name == n && a.hash in t.candidates && a.hash !in t.retired
              && a.grantId in t.grants
              && var g := t.grants[a.grantId];
              && g.hash == a.hash && !g.revoked && (g.expiresAt.Some? ==> e.now < g.expiresAt.value)
              && (forall l | l in a.hash.inputScope :: l in g.scope)
              && (n in t.activations ==> t.activations[n].hash.inputScope == a.hash.inputScope)
  {
    RunKeepsIssued(START, events, text);
    var w := Run(START, events, text);
    if NewlyActive(w.tables, Step(w, e, text).tables, n) {
      StepActivates(w, e, text, n);
    }
  }

  // What is refused for ever.

  /** What has come of a grant that is no longer valid: every later activation by
      it was there already. */
  ghost predicate NoneSince(t: Tables, u: Tables, id: string) {
    forall n | n in u.activations && u.activations[n].active && u.activations[n].grantId == id ::
      n in t.activations && t.activations[n] == u.activations[n]
  }

  lemma {:induction false} RevokedActivatesNothing(w: World, events: seq<Event>, text: Serializer, id: string)
    requires id in w.tables.grants && w.tables.grants[id].revoked
    ensures NoneSince(w.tables, Run(w, events, text).tables, id)
    decreases |events|
  {
    if events != [] {
      var next := Step(w, events[0], text);
      StepGrows(w, events[0], text);
      RevokedActivatesNothing(next, events[1..], text, id);
      forall n | n in next.tables.activations && next.tables.activations[n].active
                 && next.tables.activations[n].grantId == id
        ensures n in w.tables.activations && w.tables.activations[n] == next.tables.activations[n]
      {
        if NewlyActive(w.tables, next.tables, n) {
          StepActivates(w, events[0], text, n);
          assert false;
        }
      }
    }
  }

  /** Revoking a grant is final: whatever happens afterwards, no invocation under
      it, running or new, returns a result, and no activation by it is written. */
  lemma RevocationIsFinal(before: seq<Event>, after: seq<Event>, text: Serializer, id: string, c: int, now: int)
    requires id in Run(START, before, text).tables.grants
    ensures var past := Run(START, before, text);
            var w := Run(Step(past, Write(DoRevoke(id)), text), after, text);
            && id in w.tables.grants && w.tables.grants[id].revoked
            && (w.At(c).Evaluated? && w.At(c).grantId == id ==> Returned(w, c, now).Err?)
            && NoneSince(past.tables, w.tables, id)
  {
    var revoked := Step(Run(START, before, text), Write(DoRevoke(id)), text);
    RunGrows(revoked, after, text);
    RevokedActivatesNothing(revoked, after, text, id);
  }

  /** The end of a grant never moves: from then on, at whatever point of whatever
      run, nothing is returned under it and it activates nothing. */
  lemma ExpiryIsFinal(before: seq<Event>, after: seq<Event>, text: Serializer, id: string, c: int, now: int,
      interrupts: Interrupts)
    requires id in Run(START, before, text).tables.grants
    requires Run(START, before, text).tables.grants[id].expiresAt.Some?
    requires Run(START, before, text).tables.grants[id].expiresAt.value <= now
    ensures var w := Run(START, before + after, text);
            && (w.At(c).Evaluated? && w.At(c).grantId == id ==> Returned(w, c, now).Err?)
            && NoneSince(w.tables, Step(w, Continue(c, now, interrupts), text).tables, id)
  {
    RunAppend(START, before, after, text);
    RunGrows(Run(START, before, text), after, text);
    var w := Run(START, before + after, text);
    var e := Continue(c, now, interrupts);
    var u := Step(w, e, text).tables;
    forall n | n in u.activations && u.activations[n].active && u.activations[n].grantId == id
      ensures n in w.tables.activations && w.tables.activations[n] == u.activations[n]
    {
      if NewlyActive(w.tables, u, n) {
        StepActivates(w, e, text, n);
        assert false;
      }
    }
  }

  /** No connection's own step touches the candidates or the grants. */
  lemma AdvanceIssuesNothing(w: World, c: int, now: int, interrupts: Interrupts, text: Serializer)
    ensures var t := Advance(w, c, now, interrupts, text).tables;
            t.candidates == w.tables.candidates && t.grants == w.tables.grants
  {
    match w.At(c) {
      case SuiteChecked(id, cases) => InsertsIssueNothing(w.tables, id, cases, ToolDefinition("", 0, [], Input), "");
      case Naming(hash, rest) => if rest != [] { InsertsIssueNothing(w.tables, "", [], hash, rest[0]); }
      case EligibilityRead(a) => ActivationIssuesNothing(w.tables, a, now);
      case CasesRead(_, _, _) =>
      case _ => AdvanceOnlyMoves(w, c, now, interrupts, text);
    }
  }

  lemma IssuedOnlyUnretired(t: Tables, change: Change, text: Serializer, hash: ToolDefinition)
    requires hash in t.retired
    ensures var u := Changed(t, change, text);
            forall id | id in u.grants && u.grants[id].hash == hash :: id in t.grants
  {
  }

  lemma StepIssuesToUnretired(w: World, e: Event, text: Serializer, hash: ToolDefinition)
    requires hash in w.tables.retired
    ensures var u := Step(w, e, text).tables;
            forall id | id in u.grants && u.grants[id].hash == hash :: id in w.tables.grants
  {
    match e {
      case Continue(c, now, interrupts) => AdvanceIssuesNothing(w, c, now, interrupts, text);
      case Write(change) => IssuedOnlyUnretired(w.tables, change, text, hash);
      case _ =>
    }
  }

  lemma {:induction false} RetiredGetsNoGrant(w: World, events: seq<Event>, text: Serializer, hash: ToolDefinition)
    requires hash in w.tables.retired
    ensures var u := Run(w, events, text).tables;
            forall id | id in u.grants && u.grants[id].hash == hash :: id in w.tables.grants
    decreases |events|
  {
    if events != [] {
      var next := Step(w, events[0], text);
      StepGrows(w, events[0], text);
      StepIssuesToUnretired(w, events[0], text, hash);
      RetiredGetsNoGrant(next, events[1..], text, hash);
      var u := Run(next, events[1..], text).tables;
      RunGrows(next, events[1..], text);
      forall id | id in u.grants && u.grants[id].hash == hash ensures id in w.tables.grants {
        assert id in next.tables.grants && next.tables.grants[id].hash == hash;
      }
    }
  }

  /** A reported regression of a registered tool retires it for ever: afterwards
      every grant of it is revoked and none is issued, no activation of it is
      active, and no invocation of it, running or new, returns a result. */
  lemma RetirementIsFinal(before: seq<Event>, after: seq<Event>, text: Serializer, hash: ToolDefinition, c: int,
      now: int)
    requires hash in Run(START, before, text).tables.candidates
    ensures var past := Run(START, before, text);
            var w := Run(Step(past, Write(DoAssess(hash, hash.inputScope, true)), text), after, text);
            && hash in w.tables.retired
            && (forall id | id in w.tables.grants && w.tables.grants[id].hash == hash ::
                  id in past.tables.grants && w.tables.grants[id].revoked)
            && (forall n | n in w.tables.activations && w.tables.activations[n].hash == hash ::
                  !w.tables.activations[n].active)
            && (w.At(c).Evaluated? && w.At(c).hash == hash ==> Returned(w, c, now).Err?)
  {
    var past := Run(START, before, text);
    var e := Write(DoAssess(hash, hash.inputScope, true));
    var retired := Step(past, e, text);
    RunGrows(retired, after, text);
    RetiredGetsNoGrant(retired, after, text, hash);
    RunKeepsInv(START, before, text);
    RunKeepsInv(past, [e], text);
    assert Run(past, [e], text) == Run(retired, [], text);
    RunKeepsInv(retired, after, text);
  }

  // Eligibility.

  /** A connection reads a tool as eligible exactly when some suite is required of
      it, and for each one that is, a passing report is stored and no failing one. */
  lemma EligibilityIsReadExactlyWhen(w: World, text: Serializer, c: int, now: int, interrupts: Interrupts)
    requires w.At(c).RetirementRead?
    ensures var t, hash := w.tables, w.At(c).approval.hash;
            Step(w, Continue(c, now, interrupts), text).At(c).EligibilityRead? <==>
              && hash in t.required && (exists s :: s in t.required[hash])
              && forall s | s in t.required[hash] ::
                && (exists i | 0 <= i < |t.evaluations| :: t.evaluations[i] == Report(hash, s, true))
                && (forall i | 0 <= i < |t.evaluations| :: t.evaluations[i] != Report(hash, s, false))
  {
  }

  lemma FailedIsNotPassed(w: World, e: Event, text: Serializer, hash: ToolDefinition, s: string)
    requires s in RequiredOf(w.tables, hash) && Report(hash, s, false) in w.tables.evaluations
    ensures forall p | p in Step(w, e, text).passed && p.0 == hash :: p in w.passed
  {
    if e.Continue? {
      var w' := Advance(w, e.conn, e.now, e.interrupts, text);
      match w.At(e.conn) {
        case RetirementRead(a) =>
        case _ => assert w'.passed == w.passed;
      }
    }
  }

  /** One failing report on a required suite is final: no connection ever reads
      the tool as eligible again. */
  lemma {:induction false} FailureIsFinal(w: World, events: seq<Event>, text: Serializer, hash: ToolDefinition,
      s: string)
    requires s in RequiredOf(w.tables, hash) && Report(hash, s, false) in w.tables.evaluations
    ensures forall p | p in Run(w, events, text).passed && p.0 == hash :: p in w.passed
    decreases |events|
  {
    if events != [] {
      var next := Step(w, events[0], text);
      FailedIsNotPassed(w, events[0], text, hash, s);
      StepGrows(w, events[0], text);
      FailureIsFinal(next, events[1..], text, hash, s);
    }
  }

  // What enters the tables.

  /** A grant appears only by being issued: to a candidate that is not retired,
      with a scope that covers what the tool reads and an end still to come. */
  lemma GrantsAreIssued(w: World, e: Event, text: Serializer, id: string)
    requires id in Step(w, e, text).tables.grants && id !in w.tables.grants
    ensures var g := Step(w, e, text).tables.grants[id];
            && e.Write? && e.change.DoIssue? && e.change.grant == id
            && g == Grant(e.change.hash, e.change.scope, e.change.expiresAt, false)
            && g.hash in w.tables.candidates && g.hash !in w.tables.retired
            && (forall l | l in g.hash.inputScope :: l in g.scope)
            && (g.expiresAt.Some? ==> e.change.now < g.expiresAt.value)
  {
    if e.Continue? {
      AdvanceIssuesNothing(w, e.conn, e.now, e.interrupts, text);
    }
  }

  /** And it is issued exactly so, under a new id. */
  lemma IssuedExactlyWhen(t: Tables, id: string, hash: ToolDefinition, scope: set<string>, expiresAt: Option<int>,
      now: int)
    ensures var (u, r) := IssueGrant(t, id, hash, scope, expiresAt, now);
            && (r.Ok? <==>
                  && hash in t.candidates && hash !in t.retired && id !in t.grants
                  && (forall l | l in hash.inputScope :: l in scope)
                  && (expiresAt.Some? ==> now < expiresAt.value))
            && (r.Ok? ==>
                  && r.value == Approval(id, hash, scope)
                  && u == t.(grants := t.grants[id := Grant(hash, scope, expiresAt, false)]))
            && (r.Err? ==> u == t)
  {
  }

  /** A name of 1 to 256 bytes without blanks and control characters, an expression
      within its bounds, and 256 KiB in all. */
  predicate DefinitionFits(d: ToolDefinition, text: Serializer) {
    && 0 < |d.name| <= 256
    && (forall i | 0 <= i < |d.name| :: ' ' < d.name[i] && d.name[i] as int != 127)
    && AstDepth(d.expression) <= 32 && LeavesFit(d.expression, 0)
    && text.definition(d) <= 262_144
  }

  lemma ValidatedExactlyWhen(d: ToolDefinition, text: Serializer)
    ensures Validated(d, text).Ok? <==> DefinitionFits(d, text)
  {
    if NameFits(d.name) {
      assert forall i | 0 <= i < |d.name| :: !Blank(d.name[i]);
    }
    if DefinitionFits(d, text) {
      forall i | 0 <= i < |d.name| ensures !Blank(d.name[i]) { assert ' ' < d.name[i]; }
    }
  }

  /** A definition is registered exactly if it fits and its evidence is within 256
      KiB; one that is already registered keeps its first evidence. */
  lemma RegisteredExactlyWhen(t: Tables, d: ToolDefinition, evidence: string, text: Serializer)
    ensures var (u, r) := Register(t, d, evidence, text);
            && (r.Ok? <==> |evidence| <= 262_144 && DefinitionFits(d, text))
            && (r.Ok? ==>
                  && d in u.candidates
                  && u == t.(candidates := t.candidates[d := if d in t.candidates then t.candidates[d] else evidence]))
            && (r.Err? ==> u == t)
  {
    ValidatedExactlyWhen(d, text);
    if d in t.candidates { assert t.candidates[d := t.candidates[d]] == t.candidates; }
  }

  ghost predicate CandidatesFit(t: Tables, text: Serializer) {
    forall d | d in t.candidates :: DefinitionFits(d, text) && |t.candidates[d]| <= 262_144
  }

  /** Every candidate of every run has a name without blanks and fits the bounds
      of a definition. */
  lemma {:induction false} CandidatesAreValid(w: World, events: seq<Event>, text: Serializer)
    requires CandidatesFit(w.tables, text)
    ensures CandidatesFit(Run(w, events, text).tables, text)
    decreases |events|
  {
    if events != [] {
      StepKeepsFit(w, events[0], text);
      CandidatesAreValid(Step(w, events[0], text), events[1..], text);
    }
  }

  lemma StepKeepsFit(w: World, e: Event, text: Serializer)
    requires CandidatesFit(w.tables, text)
    ensures CandidatesFit(Step(w, e, text).tables, text)
  {
    if e.Continue? {
      AdvanceIssuesNothing(w, e.conn, e.now, e.interrupts, text);
    } else if e.Write? && e.change.DoRegister? {
      RegisteredFits(w.tables, e.change.d, e.change.evidence, text);
    }
  }

  lemma RegisteredFits(t: Tables, d: ToolDefinition, evidence: string, text: Serializer)
    requires CandidatesFit(t, text)
    ensures CandidatesFit(Register(t, d, evidence, text).0, text)
  {
    RegisteredExactlyWhen(t, d, evidence, text);
  }

  /** An assessment takes effect exactly if it retires and names a candidate by its
      own scope: the tool is retired, its grants are revoked and its activations
      ended, and no other row changes. Any other assessment changes nothing. */
  lemma AssessmentRetiresExactlyWhen(w: World, hash: ToolDefinition, scope: Scope, retires: bool, text: Serializer)
    ensures var t, u := w.tables, Step(w, Write(DoAssess(hash, scope, retires)), text).tables;
            if hash in t.candidates && hash.inputScope == scope && retires then
              && (forall h :: h in u.retired <==> h in t.retired || h == hash)
              && u == t.(retired := u.retired, grants := u.grants, activations := u.activations)
              && (forall id :: id in u.grants <==> id in t.grants)
              && (forall id | id in t.grants ::
                    u.grants[id] == if t.grants[id].hash == hash then t.grants[id].(revoked := true) else t.grants[id])
              && (forall n :: n in u.activations <==> n in t.activations)
              && (forall n | n in t.activations ::
                    u.activations[n] == if t.activations[n].hash == hash then t.activations[n].(active := false)
                                        else t.activations[n])
            else u == t
  {
  }

  // What the tables refer to.

  /** Whatever is required, evaluated or activated is of a candidate, and what it was
      evaluated on is stored. */
  ghost predicate Refers(t: Tables) {
    && (forall h | h in t.required :: h in t.candidates)
    && (forall i | 0 <= i < |t.evaluations| ::
          t.evaluations[i].hash in t.candidates && t.evaluations[i].suite in t.suites)
    && forall n | n in t.activations :: t.activations[n].hash in t.candidates
  }

  ghost predicate SessionRefers(t: Tables, s: Session) {
    match s
    case DesignationAsked(hash, _) => hash in t.candidates
    case Naming(hash, _) => hash in t.candidates
    case EvaluationAsked(hash, _) => hash in t.candidates
    case CasesRead(hash, suite, _) => hash in t.candidates && suite in t.suites
    case ActivationAsked(a) => a.hash in t.candidates
    case GrantRead(a) => a.hash in t.candidates
    case RetirementRead(a) => a.hash in t.candidates
    case EligibilityRead(a) => a.hash in t.candidates
    case _ => true
  }

  ghost predicate AllRefer(w: World) {
    Refers(w.tables) && forall c | c in w.sessions :: SessionRefers(w.tables, w.sessions[c])
  }

  lemma ChangeKeepsReferring(t: Tables, change: Change, text: Serializer)
    requires Refers(t)
    ensures Refers(Changed(t, change, text))
  {
    ChangeGrows(t, change, text);
  }

  lemma AdvanceKeepsReferring(w: World, c: int, now: int, interrupts: Interrupts, text: Serializer)
    requires AllRefer(w)
    ensures var w' := Advance(w, c, now, interrupts, text);
            Refers(w'.tables) && SessionRefers(w'.tables, w'.At(c))
  {
    match w.At(c) {
      case SuiteChecked(id, cases) => InsertsIssueNothing(w.tables, id, cases, ToolDefinition("", 0, [], Input), "");
      case Naming(hash, rest) => if rest != [] { InsertsIssueNothing(w.tables, "", [], hash, rest[0]); }
      case EligibilityRead(a) => ActivationIssuesNothing(w.tables, a, now);
      case CasesRead(_, _, _) =>
      case _ => AdvanceOnlyMoves(w, c, now, interrupts, text);
    }
  }

  lemma StepKeepsReferring(w: World, e: Event, text: Serializer)
    requires AllRefer(w)
    ensures AllRefer(Step(w, e, text))
  {
    var w' := Step(w, e, text);
    StepGrows(w, e, text);
    match e {
      case Write(change) => ChangeKeepsReferring(w.tables, change, text);
      case Continue(c, now, interrupts) =>
        AdvanceKeepsReferring(w, c, now, interrupts, text);
        forall other | other in w'.sessions ensures SessionRefers(w'.tables, w'.sessions[other]) {
          if other != c {
            AdvanceLeavesOthers(w, c, now, interrupts, text, other);
            assert w'.At(other) == w.At(other);
          }
        }
      case _ =>
    }
  }

  lemma {:induction false} RunKeepsReferring(w: World, events: seq<Event>, text: Serializer)
    requires AllRefer(w)
    ensures AllRefer(Run(w, events, text))
    decreases |events|
  {
    if events != [] {
      StepKeepsReferring(w, events[0], text);
      RunKeepsReferring(Step(w, events[0], text), events[1..], text);
    }
  }

  /** Over any run: suites are only required of candidates, only candidates are
      evaluated, on stored suites, and only candidates are activated. */
  lemma OnlyCandidatesAreTried(events: seq<Event>, text: Serializer)
    ensures Refers(Run(START, events, text).tables)
  {
    RunKeepsReferring(START, events, text);
  }
}
