/** What every run of the background controller keeps, across failures,
    restarts and forgetting. */
module ControlRuns {
  import opened Wrappers
  import opened Control
  import Sets

  // The charge of a table of roots.

  lemma {:induction false} SpentWithout(m: map<Id, Root>, id: Id)
    requires id in m
    ensures Spent(m) == Charge(m[id]) + Spent(m - {id})
    decreases |m|
  {
    var j :| j in m && Spent(m) == Charge(m[j]) + Spent(m - {j});
    if j != id {
      SpentWithout(m - {j}, id);
      SpentWithout(m - {id}, j);
      assert m - {j} - {id} == m - {id} - {j};
    }
  }

  lemma SpentWith(m: map<Id, Root>, id: Id, root: Root)
    requires id !in m
    ensures Spent(m[id := root]) == Spent(m) + Charge(root)
  {
    SpentWithout(m[id := root], id);
    assert m[id := root] - {id} == m;
  }

  /** The same roots, none charged more or made of other calls. */
  ghost predicate Tamer(m: map<Id, Root>, m': map<Id, Root>) {
    && m'.Keys == m.Keys
    && forall id | id in m :: Charge(m'[id]) <= Charge(m[id]) && m'[id].calls == m[id].calls
  }

  lemma {:induction false} TamerSpendsNoMore(m: map<Id, Root>, m': map<Id, Root>)
    requires Tamer(m, m')
    ensures Spent(m') <= Spent(m)
    decreases |m|
  {
    if m != map[] {
      var id :| id in m;
      SpentWithout(m, id);
      SpentWithout(m', id);
      TamerSpendsNoMore(m - {id}, m' - {id});
    } else {
      assert m' == map[];
    }
  }

  // The invariant.

  ghost predicate Within(roots: map<Id, Root>) {
    forall id | id in roots && roots[id].confirmed.Some? ::
      roots[id].state.Completed? && roots[id].confirmed.value <= roots[id].calls
  }

  /** A job was handed over only when free to be, on a shared board and under an
      approval that stands, after its material had stood for ten seconds and its
      dispatch was on record. */
  ghost predicate Controlled(b: Begin) {
    && !b.paused && !b.blocked && b.active.None? && b.at - b.since >= DEBOUNCE_SECONDS
    && b.id.Board? && b.root.Some? && b.root.value.state.Dispatched? && b.root.value.calls == JOB_CALLS
    && b.at < b.root.value.deadline && Approved(b.saved, b.shares, b.at)
  }

  predicate Approved(saved: Saved, shares: set<Name>, at: int) {
    && saved.enabled && !saved.paused && saved.config.Some? && 0 <= at < saved.config.value.expiresAt
    && saved.config.value.scope in shares
  }

  ghost predicate History(begun: seq<Begin>, roots: map<Id, Root>) {
    && (forall i | 0 <= i < |begun| :: Controlled(begun[i]) && begun[i].id in roots)
    && (forall i, j | 0 <= i < j < |begun| :: begun[i].id != begun[j].id)
  }

  predicate ActiveStands(active: Option<Active>, roots: map<Id, Root>) {
    active.Some? ==>
      var id := active.value.id;
      id in roots && id.Board? && roots[id].state.Dispatched? && roots[id].calls == JOB_CALLS
        && roots[id].confirmed.None?
  }

  predicate Fenced(revocations: map<Name, Option<nat>>, blocked: bool) { revocations != map[] ==> blocked }

  ghost predicate Affordable(w: World) {
    && Spent(w.roots) <= w.granted
    && (w.saved.config.Some? ==> w.saved.config.value.maxCalls <= w.granted)
  }

  ghost predicate Inv(w: World) {
    && Fenced(w.revocations, w.blocked) && History(w.begun, w.roots) && ActiveStands(w.active, w.roots)
    && Affordable(w) && Within(w.roots)
  }

  // What the parts of a tick do before anything is dispatched.

  ghost predicate NewlyUnknown(m: map<Id, Root>, m': map<Id, Root>) {
    exists id :: id in m' && m'[id].state.Unknown? && !(id in m && m[id].state.Unknown?)
  }

  /** Context is only ever blocked, and is when a root turns unknown, unless
      that write fails. */
  ghost predicate Guarded(w: World, w': World, faults: set<Fault>) {
    && (w.blocked ==> w'.blocked)
    && (w'.blocked ==> w.blocked || Blocking !in faults)
    && (w'.roots != w.roots && Blocking !in faults && NewlyUnknown(w.roots, w'.roots) ==> w'.blocked)
  }

  /** Nothing charged, begun, approved or granted. */
  ghost predicate Quiet(w: World, w': World, faults: set<Fault>) {
    && (w'.roots == w.roots || (Tamer(w.roots, w'.roots) && Within(w'.roots)))
    && (w'.revocations == w.revocations || w'.revocations.Keys <= w.revocations.Keys)
    && Guarded(w, w', faults)
    && w'.begun == w.begun && w'.granted == w.granted && w'.saved == w.saved && w'.paused == w.paused
    && (w'.active.Some? ==> w'.active == w.active && (w'.roots == w.roots || ActiveStands(w'.active, w'.roots)))
  }

  lemma QuietTwice(w: World, w1: World, w2: World, faults: set<Fault>)
    requires Quiet(w, w1, faults) && Quiet(w1, w2, faults)
    ensures Quiet(w, w2, faults)
  {
  }

  lemma QuietKeeps(w: World, w': World, faults: set<Fault>)
    requires Inv(w) && Quiet(w, w', faults)
    ensures Inv(w')
  {
    if w'.roots != w.roots { TamerSpendsNoMore(w.roots, w'.roots); }
    if w.revocations == map[] { assert w'.revocations.Keys == {}; }
  }

  lemma FinishedIsTame(roots: map<Id, Root>, id: Id, outcome: Outcome, measured: Option<nat>)
    requires Within(roots)
    ensures var f := Finish(roots, id, outcome, measured);
            f.Some? ==> Tamer(roots, f.value) && Within(f.value) && id in roots && f.value[id].state == outcome
                        && forall k | k in roots && k != id :: f.value[k] == roots[k]
  {
  }

  lemma AbandonIsQuiet(w: World, faults: set<Fault>)
    requires Within(w.roots)
    ensures Quiet(w, Abandon(w, faults).w, faults) && Abandon(w, faults).w.active.None?
  {
    var w' := Abandon(w, faults).w;
    if w.active.Some? {
      var finished := Finish(w.roots, w.active.value.id, Unknown, None);
      if Settling in faults || finished.None? {
        assert w' == w.(active := None);
      } else {
        FinishedIsTame(w.roots, w.active.value.id, Unknown, None);
        assert w'.roots == finished.value;
        assert w'.revocations == w.revocations;
      }
    } else {
      assert w' == w;
    }
  }

  lemma {:induction false} FinishAllIsQuiet(w: World, names: seq<Name>, env: Env)
    requires forall i | 0 <= i < |names| :: names[i] in w.revocations
    requires forall i, j | 0 <= i < j < |names| :: names[i] != names[j]
    ensures var a := FinishAll(w, names, env);
            && a.w == w.(revocations := a.w.revocations) && a.w.revocations.Keys <= w.revocations.Keys
            && a.flow != Done
            && (a.flow == Next ==> a.w.revocations.Keys == w.revocations.Keys - set n | n in names)
            && (a.flow == Next <==>
                 forall n | n in names :: (w.revocations[n].Some? || n in env.forgets) && n in env.cleans)
    decreases |names|
  {
    if names != [] {
      assert names == [names[0]] + names[1..];
      var first := FinishOne(w, names[0], env);
      if first.flow == Next {
        FinishAllIsQuiet(first.w, names[1..], env);
      }
    }
  }

  lemma RevocationsAreQuiet(w: World, env: Env)
    requires Within(w.roots)
    ensures var a := FinishRevocations(w, env);
            && Quiet(w, a.w, env.faults) && a.w == w.(revocations := a.w.revocations)
            && a.flow != Done && (a.flow == Next ==> a.w.revocations == map[])
            && (a.flow == Next <==>
                 forall n | n in w.revocations :: (w.revocations[n].Some? || n in env.forgets) && n in env.cleans)
  {
    var names := Sets.Ascending(w.revocations.Keys);
    Sets.AscendingLists(w.revocations.Keys);
    assert forall i | 0 <= i < |names| :: names[i] in names;
    FinishAllIsQuiet(w, names, env);
    var a := FinishRevocations(w, env);
    if a.flow == Next {
      assert a.w.revocations.Keys == {};
    }
  }

  lemma InterruptIsQuiet(w: World, env: Env)
    requires Within(w.roots)
    ensures Quiet(w, Interrupt(w, env).w, env.faults)
  {
    if w.cancelPending {
      AbandonIsQuiet(w.(cancelPending := false), env.faults);
    }
  }

  lemma InterruptsAreQuiet(w: World, now: int, env: Env)
    requires Inv(w)
    ensures Quiet(w, ApplyInterrupts(w, now, env).w, env.faults)
  {
    InterruptIsQuiet(w, env);
    var a := Interrupt(w, env);
    QuietKeeps(w, a.w, env.faults);
    if a.flow == Next && ReadingFlags !in env.faults {
      RevocationsAreQuiet(a.w, env);
      var b := if a.w.blocked then FinishRevocations(a.w, env) else a;
      QuietTwice(w, a.w, b.w, env.faults);
      if b.flow == Next {
        QuietKeeps(w, b.w, env.faults);
        AbandonIsQuiet(b.w, env.faults);
        QuietTwice(w, b.w, AbandonOverdue(b.w, now, env).w, env.faults);
      }
    }
  }

  lemma ConfirmIsQuiet(w: World, active: Active, env: Env)
    requires Within(w.roots)
    ensures Quiet(w, Confirm(w, active, env).w, env.faults)
  {
    FinishedIsTame(w.roots, active.id, Completed, Measured(env));
  }

  lemma SettlingIsQuiet(w: World, now: int, env: Env)
    requires Within(w.roots)
    ensures Quiet(w, SettleActive(w, now, env).w, env.faults)
  {
    AbandonIsQuiet(w, env.faults);
    if w.active.Some? {
      ConfirmIsQuiet(w, w.active.value, env);
    }
  }

  /** As quiet, and leaving the roots and the active job alone. */
  ghost predicate Light(w: World, w': World, faults: set<Fault>) {
    && w'.roots == w.roots && w'.revocations == w.revocations && w'.active == w.active
    && w'.begun == w.begun && w'.granted == w.granted && w'.saved == w.saved && w'.paused == w.paused
    && w'.shares == w.shares && (w.blocked ==> w'.blocked) && (w'.blocked ==> w.blocked || Blocking !in faults)
  }

  lemma LightIsQuiet(start: World, w: World, w': World, faults: set<Fault>)
    requires Inv(w) && Light(w, w', faults) && Quiet(start, w, faults)
    ensures Inv(w') && Quiet(start, w', faults)
  {
    QuietTwice(start, w, w', faults);
    QuietKeeps(w, w', faults);
  }

  lemma CheckIsLight(w: World, remaining: nat, now: int, env: Env)
    ensures var a := CheckEligible(w, remaining, now, env);
            && Light(w, a.w, env.faults)
            && (a.flow == Next ==> Approved(w.saved, w.shares, now) && !w.paused && !w.blocked)
  {
  }

  lemma SessionIsLight(w: World, env: Env)
    ensures Light(w, SessionReady(w, env).w, env.faults)
    ensures SessionReady(w, env).flow == Next ==> w.active.None?
  {
  }

  lemma DebounceIsLight(w: World, now: int, env: Env)
    ensures var a := Debounce(w, now, env);
            && Light(w, a.w, env.faults)
            && (a.flow == Next ==> a.w.pending.Some? && now - a.w.pending.value.since >= DEBOUNCE_SECONDS)
  {
    DebounceOnlyNotes(w, now, env);
  }

  lemma DebounceOnlyNotes(w: World, now: int, env: Env)
    ensures var a := Debounce(w, now, env); a.w == w.(pending := a.w.pending)
  {
    var a := Debounce(w, now, env);
    assert a.w == w || a.w == w.(pending := None)
        || (env.material.Some? && a.w == w.(pending := Some(Pending(env.material.value, now))));
  }

  // Dispatching.

  lemma ReservedFits(w: World, id: Id, calls: nat, now: int)
    requires Inv(w) && Reserve(w, id, calls, now).Some?
    ensures id !in w.roots && Spent(w.roots) + calls <= w.granted
  {
  }

  lemma AddedRootKeeps(w: World, id: Id, root: Root, faults: set<Fault>)
    requires Inv(w) && id !in w.roots && Spent(w.roots) + root.calls <= w.granted && root.confirmed.None?
             && !root.state.Unknown?
    ensures var w' := w.(roots := w.roots[id := root]); Inv(w') && Guarded(w, w', faults)
  {
    SpentWith(w.roots, id, root);
  }

  /** Whatever fails, a dispatch charges within the allowance, and what it marks
      is a new root, dispatched before its deadline. */
  lemma MarkingKeeps(w: World, id: Id, calls: nat, now: int, faults: set<Fault>)
    requires Inv(w)
    ensures var a := ReserveAndMark(w, id, calls, now, faults);
            Inv(a.w) && Guarded(w, a.w, faults) && Marked(w, a, id, calls, now)
  {
    var root := Reserve(w, id, calls, now);
    if Reserving !in faults && root.Some? {
      ReservedFits(w, id, calls, now);
      AddedRootKeeps(w, id, root.value, faults);
      AddedRootKeeps(w, id, root.value.(state := Dispatched), faults);
    }
  }

  ghost predicate Marked(w: World, a: After, id: Id, calls: nat, now: int) {
    && a.flow != Done && a.w == w.(roots := a.w.roots)
    && (a.flow == Next ==>
          && id !in w.roots && id in a.w.roots && w.saved.config.Some?
          && var root := a.w.roots[id];
             root.state.Dispatched? && root.calls == calls && root.confirmed.None? && now < root.deadline)
  }

  lemma SendingKeeps(w: World, id: Id, since: int, now: int, env: Env)
    requires Inv(w) && !w.paused && !w.blocked && w.active.None? && now - since >= DEBOUNCE_SECONDS
    requires Approved(w.saved, w.shares, now) && id.Board? && id in w.roots
    requires forall i | 0 <= i < |w.begun| :: w.begun[i].id != id
    requires var root := w.roots[id];
             root.state.Dispatched? && root.calls == JOB_CALLS && root.confirmed.None? && now < root.deadline
    ensures Inv(Send(w, id, since, now, env).w) && Guarded(w, Send(w, id, since, now, env).w, env.faults)
  {
    var begin := Begin(id, now, since, w.paused, w.blocked, w.active, Some(w.roots[id]), w.saved, w.shares);
    var w1 := w.(pending := None, begun := w.begun + [begin]);
    assert Inv(w1);
    UnsentKeeps(w1, id, env);
  }

  lemma UnknownRootKeeps(w: World, id: Id)
    requires Inv(w) && w.active.None?
    ensures var f := Finish(w.roots, id, Unknown, None); f.Some? ==> Inv(w.(roots := f.value))
  {
    FinishedIsTame(w.roots, id, Unknown, None);
    var f := Finish(w.roots, id, Unknown, None);
    if f.Some? { TamerSpendsNoMore(w.roots, f.value); }
  }

  lemma BlockingKeeps(w: World, faults: set<Fault>)
    requires Inv(w)
    ensures var a := BlockContext(w, faults);
            Inv(a.w) && a.w.roots == w.roots && (a.w.blocked <==> w.blocked || Blocking !in faults)
  {
  }

  lemma UnsentKeeps(w: World, id: Id, env: Env)
    requires Inv(w) && w.active.None?
    ensures Inv(Unsent(w, id, env).w) && Guarded(w, Unsent(w, id, env).w, env.faults)
  {
    UnknownRootKeeps(w, id);
    var f := Finish(w.roots, id, Unknown, None);
    if f.Some? { BlockingKeeps(w.(roots := f.value), env.faults); }
  }

  lemma DispatchKeeps(w: World, now: int, env: Env)
    requires Inv(w) && w.active.None? && (w.pending.Some? ==> now - w.pending.value.since >= DEBOUNCE_SECONDS)
    requires Approved(w.saved, w.shares, now)
    ensures Inv(DispatchBackground(w, now, env).w) && Guarded(w, DispatchBackground(w, now, env).w, env.faults)
  {
    if w.pending.Some? && !w.blocked && !w.paused {
      var id := Board(w.pending.value.material);
      MarkingKeeps(w, id, JOB_CALLS, now, env.faults);
      var marked := ReserveAndMark(w, id, JOB_CALLS, now, env.faults);
      if marked.flow == Next {
        SendingKeeps(marked.w, id, w.pending.value.since, now, env);
      }
    }
  }

  lemma IdleKeeps(start: World, w: World, now: int, env: Env)
    requires Inv(w) && Quiet(start, w, env.faults) && Approved(w.saved, w.shares, now)
    ensures Inv(Idle(w, now, env).w) && Guarded(start, Idle(w, now, env).w, env.faults)
  {
    SessionIsLight(w, env);
    var ready := SessionReady(w, env);
    LightIsQuiet(start, w, ready.w, env.faults);
    if ready.flow == Next {
      DebounceIsLight(ready.w, now, env);
      var seen := Debounce(ready.w, now, env);
      LightIsQuiet(start, ready.w, seen.w, env.faults);
      if seen.flow == Next {
        DispatchKeeps(seen.w, now, env);
        GuardedTwice(start, seen.w, DispatchBackground(seen.w, now, env).w, env.faults);
      }
    }
  }

  lemma GuardedTwice(w: World, w1: World, w2: World, faults: set<Fault>)
    requires Guarded(w, w1, faults) && Guarded(w1, w2, faults)
    ensures Guarded(w, w2, faults)
  {
  }

  lemma AfterInterruptsKeeps(start: World, a: After, now: int, env: Env)
    requires Inv(a.w) && Quiet(start, a.w, env.faults)
    ensures Inv(AfterInterrupts(a, now, env).w) && Guarded(start, AfterInterrupts(a, now, env).w, env.faults)
  {
    if a.flow == Next {
      var due := TickDue(a.w, now, env);
      LightIsQuiet(start, a.w, due.w, env.faults);
      if due.flow == Next {
        DueTickKeeps(start, due.w, now, env);
      }
    }
  }

  lemma TickKeeps(w: World, now: int, env: Env)
    requires Inv(w)
    ensures Inv(Tick(w, now, env).w) && Guarded(w, Tick(w, now, env).w, env.faults)
  {
    InterruptsAreQuiet(w, now, env);
    var a := ApplyInterrupts(w, now, env);
    QuietKeeps(w, a.w, env.faults);
    AfterInterruptsKeeps(w, a, now, env);
  }

  lemma DueTickKeeps(start: World, w: World, now: int, env: Env)
    requires Inv(w) && Quiet(start, w, env.faults)
    ensures Inv(DueTick(w, now, env).w) && Guarded(start, DueTick(w, now, env).w, env.faults)
  {
    SettlingIsQuiet(w, now, env);
    var c := SettleActive(w, now, env);
    QuietTwice(start, w, c.w, env.faults);
    QuietKeeps(w, c.w, env.faults);
    if c.flow == Next {
      CheckIsLight(c.w, Remaining(c.w), now, env);
      var d := CheckEligible(c.w, Remaining(c.w), now, env);
      LightIsQuiet(start, c.w, d.w, env.faults);
      if d.flow == Next {
        IdleKeeps(start, d.w, now, env);
      }
    }
  }

  // Commands.

  lemma SaveKeeps(w: World, saved: Saved)
    requires Inv(w) && (saved.config.Some? ==> saved.config.value.maxCalls <= w.granted)
    ensures Inv(Save(w, saved))
  {
    TamerSpendsNoMore(w.roots, CancelQueued(w.roots));
  }

  lemma StopKeeps(w: World, saved: Saved, faults: set<Fault>)
    requires Inv(w) && saved.config == w.saved.config
    ensures Inv(StopWork(Save(w, saved), faults).w)
  {
    SaveKeeps(w, saved);
  }

  lemma PauseKeeps(w: World, env: Env)
    requires Inv(w)
    ensures Inv(Pause(w, env).w)
  {
    StopKeeps(w.(paused := true), w.saved.(paused := true), env.faults);
  }

  lemma DisableKeeps(w: World, env: Env)
    requires Inv(w)
    ensures Inv(Disable(w, env).w)
  {
    StopKeeps(w, w.saved.(enabled := false, paused := true), env.faults);
  }

  lemma ResumeKeeps(w: World, now: int, env: Env)
    requires Inv(w)
    ensures Inv(Resume(w, now, env).w)
  {
  }

  lemma RevokeKeeps(w: World, name: Name, env: Env)
    requires Inv(w)
    ensures Inv(RevokeBoard(w, name, env).w)
  {
    var w1 := Withdrawn(w, name).(cancelPending := true, pending := None);
    assert Inv(w1);
    DisableKeeps(w1, env);
    var disabled := Disable(w1, env).w;
    RevocationsAreQuiet(disabled, env);
    QuietKeeps(disabled, FinishRevocations(disabled, env).w, env.faults);
  }

  lemma ReopenKeeps(w: World, env: Env)
    requires Inv(w) && w.revocations == map[]
    ensures Inv(Reopen(w, env).w)
  {
  }

  lemma RecoverKeeps(w: World, env: Env)
    requires Inv(w)
    ensures Inv(Recover(w, env).w)
  {
    RevocationsAreQuiet(w, env);
    var finished := FinishRevocations(w, env);
    QuietKeeps(w, finished.w, env.faults);
    if finished.flow == Next {
      ReopenKeeps(finished.w, env);
    }
  }

  lemma GrantedKeeps(w: World, config: Config)
    requires Inv(w)
    ensures Inv(Granted(w, config))
  {
    SaveKeeps(w.(granted := if w.granted < config.maxCalls then config.maxCalls else w.granted),
              Saved(Some(config), true, false, w.saved.revision + 1));
  }

  lemma ApproveIsGranting(w: World, upkeep: bool, config: Config, foregroundCalls: nat, now: int, env: Env)
    ensures var w' := Approve(w, upkeep, config, foregroundCalls, now, env).w;
            var w1 := if upkeep then w else w.(upkeep := None);
            && (|| w' == w || w' == w1
                || w' == Granted(w1, config).(upkeep := w'.upkeep, pending := w'.pending,
                           restoreAttempted := w'.restoreAttempted))
            && (w'.pending == w.pending || w'.pending.None?)
  {
  }

  lemma ApproveKeeps(w: World, upkeep: bool, config: Config, foregroundCalls: nat, now: int, env: Env)
    requires Inv(w)
    ensures Inv(Approve(w, upkeep, config, foregroundCalls, now, env).w)
  {
    ApproveIsGranting(w, upkeep, config, foregroundCalls, now, env);
    GrantedKeeps(if upkeep then w else w.(upkeep := None), config);
  }

  lemma ReserveUpkeepKeeps(w: World, name: string, expected: Config, now: int, env: Env)
    requires Inv(w)
    ensures Inv(ReserveUpkeep(w, name, expected, now, env).w)
            && Guarded(w, ReserveUpkeep(w, name, expected, now, env).w, env.faults)
  {
    MarkingKeeps(w, Upkeep(name), 1, now, env.faults);
    var marked := ReserveAndMark(w, Upkeep(name), 1, now, env.faults).w;
    FinishedRootKeeps(marked, name, Failed, None);
  }

  lemma SettleUpkeepKeeps(w: World, name: string, outcome: Outcome, confirmed: nat)
    requires Inv(w) && confirmed <= 1
    ensures var w1 := w.(roots := Reconciled(w.roots, Upkeep(name), confirmed));
            var f := Finish(w1.roots, Upkeep(name), outcome, Some(confirmed));
            Inv(w1) && (f.Some? ==> Inv(w1.(roots := f.value)))
  {
    ReconciledKeeps(w, name, confirmed);
    FinishedRootKeeps(w.(roots := Reconciled(w.roots, Upkeep(name), confirmed)), name, outcome, Some(confirmed));
  }

  lemma FinishUpkeepKeeps(w: World, name: string, outcome: Outcome, delivered: bool, env: Env)
    requires Inv(w)
    ensures Inv(FinishUpkeep(w, name, outcome, delivered, env).w)
  {
    if outcome.Completed? && delivered {
      SettleUpkeepKeeps(w, name, outcome, 1);
    } else {
      FinishedRootKeeps(w, name, outcome, Some(1));
    }
  }

  lemma ReleaseUpkeepKeeps(w: World, name: string, env: Env)
    requires Inv(w)
    ensures Inv(ReleaseUpkeep(w, name, env).w)
  {
    if Upkeep(name) in w.roots && w.roots[Upkeep(name)].confirmed.None? {
      SettleUpkeepKeeps(w, name, Completed, 0);
    } else {
      FinishedRootKeeps(w, name, Completed, Some(0));
    }
  }

  lemma FinishedRootKeeps(w: World, name: string, outcome: Outcome, measured: Option<nat>)
    requires Inv(w)
    ensures var f := Finish(w.roots, Upkeep(name), outcome, measured); f.Some? ==> Inv(w.(roots := f.value))
  {
    var f := Finish(w.roots, Upkeep(name), outcome, measured);
    if f.Some? {
      FinishedIsTame(w.roots, Upkeep(name), outcome, measured);
      TamerSpendsNoMore(w.roots, f.value);
    }
  }

  lemma ReconciledKeeps(w: World, name: string, confirmed: nat)
    requires Inv(w) && confirmed <= 1
    ensures Inv(w.(roots := Reconciled(w.roots, Upkeep(name), confirmed)))
  {
    TamerSpendsNoMore(w.roots, Reconciled(w.roots, Upkeep(name), confirmed));
  }

  lemma AroundKeeps(w: World)
    requires Inv(w)
    ensures Inv(Restarted(w)) && Inv(Forgotten(w))
  {
    TamerSpendsNoMore(w.roots, Restarted(w).roots);
  }

  lemma StepKeeps(w: World, e: Event)
    requires Inv(w)
    ensures Inv(Step(w, e))
  {
    match e
    case Ticking(now, env) => TickKeeps(w, now, env);
    case Pausing(env) => PauseKeeps(w, env);
    case Resuming(now, env) => ResumeKeeps(w, now, env);
    case Disabling(env) => DisableKeeps(w, env);
    case Sharing(_) =>
    case Revoking(name, env) => RevokeKeeps(w, name, env);
    case Recovering(env) => RecoverKeeps(w, env);
    case Approving(upkeep, config, foregroundCalls, now, env) =>
      ApproveKeeps(w, upkeep, config, foregroundCalls, now, env);
    case ReservingUpkeep(name, expected, now, env) => ReserveUpkeepKeeps(w, name, expected, now, env);
    case FinishingUpkeep(name, outcome, delivered, env) => FinishUpkeepKeeps(w, name, outcome, delivered, env);
    case ReleasingUpkeep(name, env) => ReleaseUpkeepKeeps(w, name, env);
    case Restarting => AroundKeeps(w);
    case Forgetting => AroundKeeps(w);
  }

  lemma {:induction false} RunKeeps(w: World, events: seq<Event>)
    requires Inv(w)
    ensures Inv(Run(w, events))
    decreases |events|
  {
    if events != [] {
      StepKeeps(w, events[0]);
      RunKeeps(Step(w, events[0]), events[1..]);
    }
  }

  // The main results.

  /** Over any run, with failures and restarts anywhere, every request id is
      begun at most once, and only while nothing is paused, blocked or active,
      ten seconds after its material first appeared and with its dispatch on
      durable record. */
  lemma DispatchIsControlled(events: seq<Event>)
    ensures var begun := Run(START, events).begun;
            && (forall i, j | 0 <= i < j < |begun| :: begun[i].id != begun[j].id)
            && (forall i | 0 <= i < |begun| :: Controlled(begun[i]))
  {
    RunKeeps(START, events);
  }

  /** The calls charged to background work never exceed the largest allowance a
      human approved, whatever was measured, lost or approved again. */
  lemma ChargesStayApproved(events: seq<Event>)
    ensures var w := Run(START, events); Spent(w.roots) <= w.granted
  {
    RunKeeps(START, events);
  }

  /** While a revocation is pending, context is blocked. */
  lemma PendingRevocationsBlock(events: seq<Event>)
    ensures var w := Run(START, events); w.revocations != map[] ==> w.blocked
  {
    RunKeeps(START, events);
  }

  /** What recovery needs to succeed. */
  predicate Recoverable(revocations: map<Name, Option<nat>>, env: Env) {
    && {Clearing, Acknowledging, Unblocking} !! env.faults
    && forall n | n in revocations :: (revocations[n].Some? || n in env.forgets) && n in env.cleans
  }

  /** Only recovery unblocks context, and exactly when every pending revocation
      can be finished and none of its own writes fails; then every unknown root
      has been acknowledged. */
  lemma OnlyRecoveryUnblocks(events: seq<Event>, e: Event)
    ensures var w := Run(START, events);
            w.blocked ==>
              && (!Step(w, e).blocked <==> e.Recovering? && Recoverable(w.revocations, e.env))
              && (!Step(w, e).blocked ==>
                  Step(w, e).revocations == map[] && UnknownRoots(w.roots) <= Step(w, e).acknowledged)
  {
    RunKeeps(START, events);
    var w := Run(START, events);
    if w.blocked {
      if e.Recovering? {
        RecoveryUnblocks(w, e.env);
      } else {
        OthersStayBlocked(w, e);
      }
    }
  }

  lemma ReopenUnblocks(w: World, env: Env)
    requires w.blocked
    ensures var w' := Reopen(w, env).w;
            && (!w'.blocked <==> {Clearing, Acknowledging, Unblocking} !! env.faults)
            && w'.revocations == w.revocations && (!w'.blocked ==> UnknownRoots(w.roots) <= w'.acknowledged)
  {
  }

  lemma RecoveryUnblocks(w: World, env: Env)
    requires Inv(w) && w.blocked
    ensures var w' := Recover(w, env).w;
            && (!w'.blocked <==> Recoverable(w.revocations, env))
            && (!w'.blocked ==> w'.revocations == map[] && UnknownRoots(w.roots) <= w'.acknowledged)
  {
    RevocationsAreQuiet(w, env);
    ReopenUnblocks(FinishRevocations(w, env).w, env);
  }

  lemma OthersStayBlocked(w: World, e: Event)
    requires Inv(w) && w.blocked && !e.Recovering?
    ensures Step(w, e).blocked
  {
    match e
    case Ticking(now, env) => TickKeeps(w, now, env);
    case Revoking(name, env) => RevokingStaysBlocked(w, name, env);
    case ReservingUpkeep(name, expected, now, env) => ReserveUpkeepKeeps(w, name, expected, now, env);
    case _ =>
  }

  lemma RevokingStaysBlocked(w: World, name: Name, env: Env)
    requires Inv(w) && w.blocked
    ensures RevokeBoard(w, name, env).w.blocked
  {
    var w1 := Withdrawn(w, name).(cancelPending := true, pending := None);
    DisableKeeps(w1, env);
    RevocationsAreQuiet(Disable(w1, env).w, env);
  }

  lemma PausingMakesNoneUnknown(w: World, env: Env)
    ensures !NewlyUnknown(w.roots, Pause(w, env).w.roots)
  {
  }

  lemma DisablingMakesNoneUnknown(w: World, env: Env)
    ensures !NewlyUnknown(w.roots, Disable(w, env).w.roots)
  {
  }

  lemma ApprovingMakesNoneUnknown(w: World, upkeep: bool, config: Config, foregroundCalls: nat, now: int, env: Env)
    ensures !NewlyUnknown(w.roots, Approve(w, upkeep, config, foregroundCalls, now, env).w.roots)
  {
  }

  lemma RevokingMakesNoneUnknown(w: World, name: Name, env: Env)
    requires Inv(w)
    ensures !NewlyUnknown(w.roots, RevokeBoard(w, name, env).w.roots)
  {
    var w1 := Withdrawn(w, name).(cancelPending := true, pending := None);
    DisablingMakesNoneUnknown(w1, env);
    DisableKeeps(w1, env);
    var disabled := Disable(w1, env);
    RevocationsAreQuiet(disabled.w, env);
    assert FinishRevocations(disabled.w, env).w.roots == disabled.w.roots;
  }

  lemma RecoveringMakesNoneUnknown(w: World, env: Env)
    requires Inv(w)
    ensures Recover(w, env).w.roots == w.roots
  {
    RevocationsAreQuiet(w, env);
  }

  lemma ReservingUpkeepMakesNoneUnknown(w: World, name: string, expected: Config, now: int, env: Env)
    ensures !NewlyUnknown(w.roots, ReserveUpkeep(w, name, expected, now, env).w.roots)
  {
  }

  /** Settling after a reconciliation makes nothing unknown but what it says. */
  lemma SettlingMakesUnknown(roots: map<Id, Root>, id: Id, confirmed: nat, outcome: Outcome)
    ensures var after := Finish(Reconciled(roots, id, confirmed), id, outcome, Some(confirmed));
            && !NewlyUnknown(roots, Reconciled(roots, id, confirmed))
            && (after.Some? && NewlyUnknown(roots, after.value) ==> outcome.Unknown?)
  {
  }

  lemma FinishMakesUnknown(roots: map<Id, Root>, id: Id, outcome: Outcome, measured: Option<nat>)
    ensures var after := Finish(roots, id, outcome, measured);
            after.Some? && NewlyUnknown(roots, after.value) ==> outcome.Unknown?
  {
  }

  lemma FinishingUpkeepLeavesContext(w: World, name: string, outcome: Outcome, delivered: bool, env: Env)
    ensures var w' := FinishUpkeep(w, name, outcome, delivered, env).w;
            w'.blocked == w.blocked && (NewlyUnknown(w.roots, w'.roots) ==> outcome.Unknown?)
  {
    SettlingMakesUnknown(w.roots, Upkeep(name), 1, outcome);
    FinishMakesUnknown(w.roots, Upkeep(name), outcome, Some(1));
  }

  lemma ReleasingUpkeepLeavesContext(w: World, name: string, env: Env)
    ensures var w' := ReleaseUpkeep(w, name, env).w; w'.blocked == w.blocked && !NewlyUnknown(w.roots, w'.roots)
  {
    SettlingMakesUnknown(w.roots, Upkeep(name), 0, Completed);
    FinishMakesUnknown(w.roots, Upkeep(name), Completed, Some(0));
  }

  /** Whatever turns a root unknown, in any run, leaves context as it was,
      except a tick: that blocks it, exactly unless the blocking write fails. */
  lemma UnknownBlocksAtOnce(events: seq<Event>, e: Event)
    ensures var w := Run(START, events);
            NewlyUnknown(w.roots, Step(w, e).roots) ==>
              && (Step(w, e).blocked <==> w.blocked || (e.Ticking? && Blocking !in e.env.faults))
              && (e.Ticking? || e.Restarting? || (e.FinishingUpkeep? && e.outcome.Unknown?))
  {
    RunKeeps(START, events);
    EventBlocksIfUnknown(Run(START, events), e);
  }

  lemma EventBlocksIfUnknown(w: World, e: Event)
    requires Inv(w)
    ensures NewlyUnknown(w.roots, Step(w, e).roots) ==>
              && (Step(w, e).blocked <==> w.blocked || (e.Ticking? && Blocking !in e.env.faults))
              && (e.Ticking? || e.Restarting? || (e.FinishingUpkeep? && e.outcome.Unknown?))
  {
    match e
    case Ticking(now, env) => TickKeeps(w, now, env);
    case Pausing(env) => PausingMakesNoneUnknown(w, env);
    case Resuming(now, env) => assert Resume(w, now, env).w.roots == w.roots;
    case Disabling(env) => DisablingMakesNoneUnknown(w, env);
    case Sharing(_) =>
    case Revoking(name, env) => RevokingMakesNoneUnknown(w, name, env);
    case Recovering(env) => RecoveringMakesNoneUnknown(w, env);
    case Approving(upkeep, config, calls, now, env) => ApprovingMakesNoneUnknown(w, upkeep, config, calls, now, env);
    case ReservingUpkeep(name, expected, now, env) => ReservingUpkeepMakesNoneUnknown(w, name, expected, now, env);
    case FinishingUpkeep(name, outcome, delivered, env) =>
      FinishingUpkeepLeavesContext(w, name, outcome, delivered, env);
    case ReleasingUpkeep(name, env) => ReleasingUpkeepLeavesContext(w, name, env);
    case Restarting => assert Restarted(w).blocked == w.blocked;
    case Forgetting =>
  }

  // Runs that reach the exceptions.

  const SMOOTH :=
    Env({}, {}, {}, 0, false, false, None, false, false, false, false, false, Matching, true, Some("material"))
  const BOARD_RUN :=
    [Sharing(0), Approving(false, Config(0, 4, 100, 50), 4, 1, SMOOTH), Ticking(10, SMOOTH), Ticking(20, SMOOTH)]

  lemma {:induction false} RunAppend(w: World, events: seq<Event>, e: Event)
    ensures Run(w, events + [e]) == Step(Run(w, events), e)
    decreases |events|
  {
    if events == [] {
      assert ([] + [e])[1..] == [];
    } else {
      assert (events + [e])[1..] == events[1..] + [e];
      RunAppend(Step(w, events[0]), events[1..], e);
    }
  }

  lemma RunThree(w: World, a: Event, b: Event, c: Event)
    ensures Run(w, [a, b, c]) == Step(Step(Step(w, a), b), c)
  {
    RunAppend(w, [], a);
    RunAppend(w, [a], b);
    RunAppend(w, [a, b], c);
    assert [] + [a] == [a] && [a] + [b] == [a, b] && [a, b] + [c] == [a, b, c];
  }

  /** A shared and approved board whose material stands for ten seconds has a
      job begun for it, with context open. */
  lemma JobIsBegun()
    ensures var w := Run(START, BOARD_RUN);
            && w.active == Some(Active(Board("material"), 0, 70)) && |w.begun| == 1 && !w.blocked
            && w.shares == {0} && !w.cancelPending
  {
    var w2 := Granted(START.(shares := {0}), Config(0, 4, 100, 50)).(pending := None, restoreAttempted := false);
    assert w2.roots == map[];
    assert Step(Step(START, BOARD_RUN[0]), BOARD_RUN[1]) == w2;
    assert Spent(map[]) == 0;
    var w3 := w2.(lastTick := Some(10), pending := Some(Pending("material", 10)));
    assert Step(w2, BOARD_RUN[2]) == w3;
    RunThree(START, BOARD_RUN[0], BOARD_RUN[1], BOARD_RUN[2]);
    RunAppend(START, BOARD_RUN[..3], BOARD_RUN[3]);
    assert BOARD_RUN[..3] == [BOARD_RUN[0], BOARD_RUN[1], BOARD_RUN[2]] && BOARD_RUN == BOARD_RUN[..3] + [BOARD_RUN[3]];
  }

  /** A restart right then makes that job unknown, and context stays open. */
  lemma RestartLeavesContextOpen()
    ensures var w := Run(START, BOARD_RUN + [Restarting]);
            Board("material") in w.roots && w.roots[Board("material")].state.Unknown? && !w.blocked
  {
    JobIsBegun();
    RunKeeps(START, BOARD_RUN);
    RunAppend(START, BOARD_RUN, Restarting);
  }

  /** So does memory upkeep that ends unknown. */
  lemma UpkeepLeavesContextOpen()
    ensures var config := Config(0, 4, 100, 50);
            var w := Run(START, [Approving(true, config, 4, 1, SMOOTH), ReservingUpkeep("u", config, 2, SMOOTH),
                                 FinishingUpkeep("u", Unknown, false, SMOOTH)]);
            Upkeep("u") in w.roots && w.roots[Upkeep("u")].state.Unknown? && !w.blocked
  {
    var config := Config(0, 4, 100, 50);
    RunThree(START, Approving(true, config, 4, 1, SMOOTH), ReservingUpkeep("u", config, 2, SMOOTH),
      FinishingUpkeep("u", Unknown, false, SMOOTH));
    var w1 := Step(START, Approving(true, config, 4, 1, SMOOTH));
    assert w1.roots == map[];
    assert Spent(map[]) == 0;
    assert UpkeepPermission(w1, 4, 2, false, SMOOTH) == Some(config);
  }

  /** An abandoned job is unknown when its settlement is written, and stays
      dispatched when it is not; it is dropped from memory either way. */
  lemma AbandonedJob(events: seq<Event>, faults: set<Fault>)
    ensures var w := Run(START, events);
            var w' := Abandon(w, faults).w;
            w.active.Some? ==>
              && w'.active.None?
              && w.active.value.id in w'.roots
              && w'.roots[w.active.value.id].state == (if Settling in faults then Dispatched else Unknown)
              && (w'.blocked <==> w.blocked || {Settling, Blocking} !! faults)
              && (Abandon(w, faults).flow.Next? <==> {Settling, Blocking, Allowing} !! faults)
  {
    RunKeeps(START, events);
  }

  /** A restart makes exactly the dispatched roots unknown, the active job's
      among them, and leaves context as open as it was. */
  lemma RestartDoesNotBlock(events: seq<Event>)
    ensures var w := Run(START, events);
            && (w.active.Some? ==> w.active.value.id in w.roots && Restarted(w).roots[w.active.value.id].state.Unknown?)
            && (forall id | id in w.roots ::
                  Restarted(w).roots[id].state.Unknown? <==>
                    w.roots[id].state.Dispatched? || w.roots[id].state.Unknown?)
            && Restarted(w).blocked == w.blocked
  {
    RunKeeps(START, events);
  }

  // No job outlives its time.

  /** A job is due to end: by its deadline at a tick that is taken, by the
      monotonic clock, or because the wall clock went back. */
  predicate Late(w: World, now: int, env: Env) {
    && w.active.Some?
    && (|| env.overdue || (w.lastTick.Some? && now < w.lastTick.value)
        || (now >= w.active.value.deadline && !env.polledRecently && (w.lastTick.Some? ==> w.lastTick.value < now)))
  }

  lemma InterruptsEndOverdue(w: World, now: int, env: Env)
    requires Inv(w) && w.active.Some? && env.faults == {} && Endable(w, env)
    ensures var a := ApplyInterrupts(w, now, env);
            a.w.active.None?
              || (a.flow == Next && a.w.active == w.active && !Overdue(w, now, env) && a.w.lastTick == w.lastTick)
  {
    InterruptIsQuiet(w, env);
    var a := Interrupt(w, env);
    AbandonIsQuiet(w.(cancelPending := false), env.faults);
    if a.flow == Next {
      RevocationsAreQuiet(a.w, env);
      var b := if a.w.blocked then FinishRevocations(a.w, env) else a;
      AbandonIsQuiet(b.w, env.faults);
    }
  }

  lemma SettlingEndsLate(w: World, now: int, env: Env)
    requires Inv(w) && env.faults == {} && (w.active.Some? ==> now >= w.active.value.deadline)
    ensures SettleActive(w, now, env).w.active.None?
  {
    AbandonIsQuiet(w, env.faults);
  }

  /** A tick with no active job can only begin one under a new id. */
  lemma IdleBeginsNew(w: World, now: int, env: Env, id: Id)
    requires Inv(w) && w.active.None? && id in w.roots
    ensures var w' := Idle(w, now, env).w; w'.active.Some? ==> w'.active.value.id != id
  {
    SessionIsLight(w, env);
    var ready := SessionReady(w, env);
    LightIsQuiet(w, w, ready.w, env.faults);
    if ready.flow == Next {
      DebounceIsLight(ready.w, now, env);
      var seen := Debounce(ready.w, now, env);
      LightIsQuiet(w, ready.w, seen.w, env.faults);
      if seen.flow == Next && seen.w.pending.Some? {
        MarkingKeeps(seen.w, Board(seen.w.pending.value.material), JOB_CALLS, now, env.faults);
      }
    }
  }

  lemma DueTickEnds(w: World, now: int, env: Env, id: Id)
    requires Inv(w) && env.faults == {} && id in w.roots && (w.active.Some? ==> now >= w.active.value.deadline)
    ensures var w' := DueTick(w, now, env).w; w'.active.Some? ==> w'.active.value.id != id
  {
    SettlingIsQuiet(w, now, env);
    SettlingEndsLate(w, now, env);
    var c := SettleActive(w, now, env);
    QuietKeeps(w, c.w, env.faults);
    if c.flow == Next {
      CheckIsLight(c.w, Remaining(c.w), now, env);
      var d := CheckEligible(c.w, Remaining(c.w), now, env);
      LightIsQuiet(c.w, c.w, d.w, env.faults);
      if d.flow == Next { IdleBeginsNew(d.w, now, env, id); }
    }
  }

  lemma EndsAfterInterrupts(a: After, now: int, env: Env, id: Id)
    requires Inv(a.w) && env.faults == {} && id in a.w.roots
    requires a.w.active.None?
             || (a.flow == Next && TickDue(a.w, now, env).flow == Next && now >= a.w.active.value.deadline)
    ensures var w' := AfterInterrupts(a, now, env).w; w'.active.Some? ==> w'.active.value.id != id
  {
    if a.flow == Next {
      var due := TickDue(a.w, now, env);
      LightIsQuiet(a.w, a.w, due.w, env.faults);
      if due.flow == Next { DueTickEnds(due.w, now, env, id); }
    }
  }

  lemma LateJobIsEnded(w: World, now: int, env: Env)
    requires Inv(w) && env.faults == {} && Late(w, now, env) && Endable(w, env)
    ensures !Outlives(w, Tick(w, now, env).w)
  {
    InterruptsAreQuiet(w, now, env);
    InterruptsEndOverdue(w, now, env);
    var a := ApplyInterrupts(w, now, env);
    QuietKeeps(w, a.w, env.faults);
    EndsAfterInterrupts(a, now, env, w.active.value.id);
  }

  /** Whether a tick gets as far as to look at the job: a cancellation comes
      first, and else no revocation must be stuck. */
  predicate Endable(w: World, env: Env) { w.cancelPending || !w.blocked || Recoverable(w.revocations, env) }

  predicate Outlives(w: World, w': World)
    requires w.active.Some?
  {
    w'.active.Some? && w'.active.value.id == w.active.value.id
  }

  lemma StuckJobStays(w: World, now: int, env: Env)
    requires Inv(w) && env.faults == {} && w.active.Some? && !Endable(w, env)
    ensures var w' := Tick(w, now, env).w; w' == w.(revocations := w'.revocations)
  {
    RevocationsAreQuiet(w, env);
    assert ApplyInterrupts(w, now, env) == FinishRevocations(w, env);
  }

  /** A tick without failures ends a job that is late, by whichever clock, even
      when the wall clock stands still or goes back: exactly unless it is held
      up by a revocation that cannot be finished. */
  lemma NoJobOutlivesItsTime(events: seq<Event>, now: int, env: Env)
    requires env.faults == {}
    ensures var w := Run(START, events);
            Late(w, now, env) ==> (!Outlives(w, Tick(w, now, env).w) <==> Endable(w, env))
  {
    RunKeeps(START, events);
    var w := Run(START, events);
    if Late(w, now, env) {
      if Endable(w, env) { LateJobIsEnded(w, now, env); } else { StuckJobStays(w, now, env); }
    }
  }

  lemma {:induction false} UncleanedStay(w: World, names: seq<Name>, env: Env, n: Name)
    requires forall i | 0 <= i < |names| :: names[i] in w.revocations
    requires forall i, j | 0 <= i < j < |names| :: names[i] != names[j]
    requires n in w.revocations && n !in env.cleans
    ensures n in FinishAll(w, names, env).w.revocations
    decreases |names|
  {
    if names != [] {
      var first := FinishOne(w, names[0], env);
      if first.flow == Next { UncleanedStay(first.w, names[1..], env, n); }
    }
  }

  lemma RevocationStays(w: World, env: Env, n: Name)
    requires n in w.revocations && n !in env.cleans
    ensures n in FinishRevocations(w, env).w.revocations
  {
    var names := Sets.Ascending(w.revocations.Keys);
    Sets.AscendingLists(w.revocations.Keys);
    assert forall i | 0 <= i < |names| :: names[i] in names;
    UncleanedStay(w, names, env, n);
  }

  predicate FailsToClean(e: Event, n: Name) { e.Ticking? && e.env.faults == {} && n !in e.env.cleans }

  lemma {:induction false} StuckJobStaysForEver(w: World, ticks: seq<Event>, n: Name)
    requires Inv(w) && w.active.Some? && w.blocked && !w.cancelPending && n in w.revocations
    requires forall i | 0 <= i < |ticks| :: FailsToClean(ticks[i], n)
    ensures Run(w, ticks).active == w.active
    decreases |ticks|
  {
    if ticks != [] {
      assert FailsToClean(ticks[0], n);
      var now, env := ticks[0].now, ticks[0].env;
      StuckJobStays(w, now, env);
      RevocationsAreQuiet(w, env);
      RevocationStays(w, env, n);
      assert ApplyInterrupts(w, now, env) == FinishRevocations(w, env);
      TickKeeps(w, now, env);
      StuckJobStaysForEver(Tick(w, now, env).w, ticks[1..], n);
    }
  }

  /** A job is running as everything is forgotten, and the cleanup of its board
      never succeeds: it stays active through any number of ticks, at any time. */
  lemma JobOutlivesItsTime(ticks: seq<Event>)
    requires forall i | 0 <= i < |ticks| :: FailsToClean(ticks[i], 0)
    ensures Run(Run(START, BOARD_RUN + [Forgetting]), ticks).active == Some(Active(Board("material"), 0, 70))
  {
    ForgettingBlocksTheJob();
    RunKeeps(START, BOARD_RUN + [Forgetting]);
    StuckJobStaysForEver(Run(START, BOARD_RUN + [Forgetting]), ticks, 0);
  }

  lemma ForgettingBlocksTheJob()
    ensures var w := Run(START, BOARD_RUN + [Forgetting]);
            && w.active == Some(Active(Board("material"), 0, 70)) && w.blocked && !w.cancelPending
            && 0 in w.revocations
  {
    JobIsBegun();
    RunAppend(START, BOARD_RUN, Forgetting);
    var w := Run(START, BOARD_RUN);
    assert Forgotten(w).active == w.active && Forgotten(w).cancelPending == w.cancelPending;
    assert 0 in Forgotten(w).revocations;
  }
}
