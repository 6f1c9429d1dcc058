/** What the owner's commands do to every later run of the background controller:
    what a pause, a disablement and a revoked board stop, what ends a stopped
    job, when approval, resumption and upkeep succeed, and what a job's material
    and receipt must be. */
module ControlGates {
  import opened Wrappers
  import opened Control
  import opened ControlRuns
  import Sets

  // What a tick does before it looks at the board.

  /** No root is added, and none is made reserved or dispatched. */
  predicate StillRoots(m: map<Id, Root>, m': map<Id, Root>) {
    forall id | id in m' ::
      && id in m
      && (m'[id].state.Dispatched? ==> m[id].state.Dispatched?) && (m'[id].state.Reserved? ==> m[id].state.Reserved?)
  }

  /** Nothing is begun, reserved, dispatched, approved or shared; a cancellation
      that was pending is, or has ended the job. */
  predicate Calm(w: World, w': World) {
    && (w'.roots == w.roots || StillRoots(w.roots, w'.roots))
    && w'.begun == w.begun && w'.saved == w.saved && w'.paused == w.paused && w'.shares == w.shares
    && w'.granted == w.granted
    && (w'.pending == w.pending || w'.pending.None?)
    && (w'.active == w.active || w'.active.None?)
    && (w.cancelPending ==> w'.cancelPending || w'.active.None?)
  }

  lemma CalmTwice(w: World, w1: World, w2: World)
    requires Calm(w, w1) && Calm(w1, w2)
    ensures Calm(w, w2)
  {
  }

  lemma FinishIsStill(roots: map<Id, Root>, id: Id, outcome: Outcome, measured: Option<nat>)
    ensures var f := Finish(roots, id, outcome, measured); f.Some? ==> StillRoots(roots, f.value)
  {
  }

  lemma AbandonIsCalm(w: World, faults: set<Fault>)
    ensures Calm(w, Abandon(w, faults).w) && Abandon(w, faults).w.active.None?
  {
    if w.active.Some? {
      FinishIsStill(w.roots, w.active.value.id, Unknown, None);
      var finished := Finish(w.roots, w.active.value.id, Unknown, None);
      if Settling in faults || finished.None? {
        assert Abandon(w, faults).w == w.(active := None);
      } else {
        var w1 := w.(active := None, roots := finished.value);
        assert Abandon(w, faults) == BlockContext(w1, faults);
        BlockingIsCalm(w1, faults);
      }
    }
  }

  lemma BlockingIsCalm(w: World, faults: set<Fault>)
    ensures var w' := BlockContext(w, faults).w;
            w'.pending.None? && w' == w.(pending := None, blocked := w'.blocked)
  {
  }

  lemma InterruptIsCalm(w: World, env: Env)
    ensures Calm(w, Interrupt(w, env).w)
  {
    AbandonIsCalm(w.(cancelPending := false), env.faults);
  }

  lemma InterruptsAreCalm(w: World, now: int, env: Env)
    requires Inv(w)
    ensures Calm(w, ApplyInterrupts(w, now, env).w)
  {
    InterruptIsQuiet(w, env);
    InterruptIsCalm(w, env);
    var a := Interrupt(w, env);
    if a.flow == Next && ReadingFlags !in env.faults {
      QuietKeeps(w, a.w, env.faults);
      RevocationsAreQuiet(a.w, env);
      var b := if a.w.blocked then FinishRevocations(a.w, env) else a;
      CalmTwice(w, a.w, b.w);
      AbandonIsCalm(b.w, env.faults);
      CalmTwice(w, b.w, AbandonOverdue(b.w, now, env).w);
    }
  }

  lemma SettlingIsCalm(w: World, now: int, env: Env)
    ensures Calm(w, SettleActive(w, now, env).w)
  {
    AbandonIsCalm(w, env.faults);
    if w.active.Some? { FinishIsStill(w.roots, w.active.value.id, Completed, Measured(env)); }
  }

  lemma CheckIsCalm(w: World, remaining: nat, now: int, env: Env)
    ensures Calm(w, CheckEligible(w, remaining, now, env).w)
  {
  }

  // What a tick begins.

  /** At most one job is begun: for the material on the board, first seen when
      the pending note says, under what is approved and shared. */
  predicate Begins(w: World, w': World, now: int, env: Env) {
    && w'.saved == w.saved && w'.shares == w.shares && w'.paused == w.paused
    && (w'.pending == w.pending || w'.pending.None?
        || (env.material.Some? && w'.pending == Some(Pending(env.material.value, now))))
    && (|| w'.begun == w.begun
        || (&& |w'.begun| == |w.begun| + 1 && w'.begun[..|w.begun|] == w.begun && env.material.Some?
            && var b := w'.begun[|w.begun|];
            && b.at == now && b.saved == w.saved && b.shares == w.shares && b.id == Board(env.material.value)
            && w.pending == Some(Pending(env.material.value, b.since))))
  }

  lemma CalmThenBegins(w: World, w1: World, w2: World, now: int, env: Env)
    requires Calm(w, w1) && Begins(w1, w2, now, env)
    ensures Begins(w, w2, now, env)
  {
  }

  lemma SendBegins(w: World, id: Id, since: int, now: int, env: Env)
    requires id in w.roots && w.saved.config.Some? && env.material.Some? && id == Board(env.material.value)
    requires w.pending == Some(Pending(env.material.value, since))
    ensures Begins(w, Send(w, id, since, now, env).w, now, env)
  {
    var begin := Begin(id, now, since, w.paused, w.blocked, w.active, Some(w.roots[id]), w.saved, w.shares);
    UnsentLeaves(w.(pending := None, begun := w.begun + [begin]), id, env);
  }

  lemma UnsentLeaves(w: World, id: Id, env: Env)
    ensures var w' := Unsent(w, id, env).w;
            && w' == w.(roots := w'.roots, blocked := w'.blocked, pending := w'.pending)
            && (w'.pending == w.pending || w'.pending.None?)
  {
  }

  lemma DispatchBegins(w: World, now: int, env: Env)
    requires w.pending.Some? ==> env.material == Some(w.pending.value.material)
    ensures Begins(w, DispatchBackground(w, now, env).w, now, env)
  {
    if w.pending.Some? && w.saved.config.Some? && Remaining(w) >= JOB_CALLS && !w.blocked && !w.paused {
      var id := Board(w.pending.value.material);
      MarkedOnlyRoots(w, id, now, env.faults);
      var marked := ReserveAndMark(w, id, JOB_CALLS, now, env.faults);
      if marked.flow == Next { SendBegins(marked.w, id, w.pending.value.since, now, env); }
    }
  }

  lemma MarkedOnlyRoots(w: World, id: Id, now: int, faults: set<Fault>)
    ensures var a := ReserveAndMark(w, id, JOB_CALLS, now, faults);
            a.w == w.(roots := a.w.roots) && (a.flow == Next ==> id in a.w.roots)
  {
  }

  lemma SessionIsCalm(w: World, env: Env)
    ensures Calm(w, SessionReady(w, env).w)
  {
  }

  lemma DebounceBegins(w: World, now: int, env: Env)
    ensures var a := Debounce(w, now, env);
            && Begins(w, a.w, now, env)
            && (a.flow == Next ==> a.w == w && w.pending.Some? && env.material == Some(w.pending.value.material))
  {
  }

  lemma IdleBegins(w: World, now: int, env: Env)
    ensures Begins(w, Idle(w, now, env).w, now, env)
  {
    SessionIsCalm(w, env);
    var ready := SessionReady(w, env);
    if ready.flow == Next {
      DebounceBegins(ready.w, now, env);
      var seen := Debounce(ready.w, now, env);
      if seen.flow == Next { DispatchBegins(seen.w, now, env); }
      CalmThenBegins(w, ready.w, Idle(w, now, env).w, now, env);
    }
  }

  lemma DueTickBegins(w: World, now: int, env: Env)
    ensures var w' := DueTick(w, now, env).w;
            Begins(w, w', now, env) && (w.paused || !w.saved.enabled ==> Calm(w, w'))
  {
    SettlingIsCalm(w, now, env);
    var settled := SettleActive(w, now, env);
    if settled.flow == Next {
      var remaining := Remaining(settled.w);
      CheckIsCalm(settled.w, remaining, now, env);
      CheckIsLight(settled.w, remaining, now, env);
      var checked := CheckEligible(settled.w, remaining, now, env);
      CalmTwice(w, settled.w, checked.w);
      if checked.flow == Next {
        IdleBegins(checked.w, now, env);
        CalmThenBegins(w, checked.w, Idle(checked.w, now, env).w, now, env);
      }
    }
  }

  lemma TickBegins(w: World, now: int, env: Env)
    requires Inv(w)
    ensures var w' := Tick(w, now, env).w;
            Begins(w, w', now, env) && (w.paused || !w.saved.enabled ==> Calm(w, w'))
  {
    InterruptsAreCalm(w, now, env);
    var a := ApplyInterrupts(w, now, env);
    if a.flow == Next {
      var due := TickDue(a.w, now, env);
      if due.flow == Next {
        DueTickBegins(due.w, now, env);
        CalmThenBegins(w, a.w.(lastTick := Some(now)), DueTick(due.w, now, env).w, now, env);
        if w.paused || !w.saved.enabled { CalmTwice(w, due.w, DueTick(due.w, now, env).w); }
      }
    }
  }

  // Closed gates.

  /** Nothing was handed to the session, reserved or dispatched in between. */
  predicate NothingBegun(w: World, w': World) { w'.begun == w.begun && StillRoots(w.roots, w'.roots) }

  predicate Withheld(w: World) { w.paused || !w.saved.enabled }

  lemma ReconcilingIsStill(roots: map<Id, Root>, id: Id, confirmed: nat)
    ensures StillRoots(roots, Reconciled(roots, id, confirmed))
  {
  }

  /** Settling an upkeep root, reconciled first or not. */
  lemma SettledIsStill(roots: map<Id, Root>, id: Id, confirmed: nat, outcome: Outcome)
    ensures StillRoots(roots, roots) && StillRoots(roots, Reconciled(roots, id, confirmed))
    ensures var f := Finish(roots, id, outcome, Some(confirmed)); f.Some? ==> StillRoots(roots, f.value)
    ensures var f := Finish(Reconciled(roots, id, confirmed), id, outcome, Some(confirmed));
            f.Some? ==> StillRoots(roots, f.value)
  {
    ReconcilingIsStill(roots, id, confirmed);
    FinishIsStill(roots, id, outcome, Some(confirmed));
    FinishIsStill(Reconciled(roots, id, confirmed), id, outcome, Some(confirmed));
  }

  lemma FinishingUpkeepIsStill(w: World, name: string, outcome: Outcome, delivered: bool, env: Env)
    ensures var w' := FinishUpkeep(w, name, outcome, delivered, env).w;
            StillRoots(w.roots, w'.roots) && w' == w.(roots := w'.roots)
  {
    SettledIsStill(w.roots, Upkeep(name), 1, outcome);
  }

  lemma ReleasingUpkeepIsStill(w: World, name: string, env: Env)
    ensures var w' := ReleaseUpkeep(w, name, env).w;
            StillRoots(w.roots, w'.roots) && w' == w.(roots := w'.roots)
  {
    SettledIsStill(w.roots, Upkeep(name), 0, Completed);
  }

  lemma CancellingIsStill(roots: map<Id, Root>)
    ensures StillRoots(roots, CancelQueued(roots))
  {
  }

  lemma DisablingIsStill(w: World, env: Env)
    ensures var w' := Disable(w, env).w;
            && NothingBegun(w, w') && w'.paused == w.paused && w'.shares == w.shares && w'.active == w.active
            && (!w.saved.enabled || Saving !in env.faults ==> !w'.saved.enabled)
            && (Saving !in env.faults ==> forall id | id in w'.roots :: !w'.roots[id].state.Reserved?)
            && (w.cancelPending ==> w'.cancelPending)
  {
    CancellingIsStill(w.roots);
  }

  lemma RevokingIsStill(w: World, name: Name, env: Env)
    requires Inv(w)
    ensures var w' := RevokeBoard(w, name, env).w;
            && NothingBegun(w, w') && w'.paused == w.paused && (!w.saved.enabled ==> !w'.saved.enabled)
            && w'.shares == (if Withdrawing in env.faults then w.shares else w.shares - {name})
            && (w.cancelPending || w.active.None? ==> w'.cancelPending || w'.active.None?)
  {
    var w1 := Withdrawn(w, name).(cancelPending := true, pending := None);
    assert Inv(w1);
    DisablingIsStill(w1, env);
    DisableKeeps(w1, env);
    RevocationsAreQuiet(Disable(w1, env).w, env);
  }

  lemma RecoveringIsStill(w: World, env: Env)
    requires Inv(w)
    ensures var w' := Recover(w, env).w;
            && NothingBegun(w, w') && w'.paused == w.paused && w'.saved == w.saved && w'.shares == w.shares
            && w'.active == w.active && w'.cancelPending == w.cancelPending
  {
    RevocationsAreQuiet(w, env);
  }

  lemma UpkeepIsRefused(w: World, name: string, expected: Config, now: int, env: Env)
    requires Withheld(w)
    ensures ReserveUpkeep(w, name, expected, now, env) == After(w, Broken)
  {
  }

  lemma RestartingIsStill(w: World)
    ensures NothingBegun(w, Restarted(w)) && Restarted(w).active.None?
  {
  }

  lemma PausingIsStill(w: World, env: Env)
    ensures var w' := Pause(w, env).w;
            && NothingBegun(w, w') && (w.paused || Holding !in env.faults ==> w'.paused) && w'.active == w.active
            && (!w.saved.enabled ==> !w'.saved.enabled)
            && (w.cancelPending || {Holding, Saving} !! env.faults ==> w'.cancelPending)
            && ({Holding, Saving} !! env.faults ==> forall id | id in w'.roots :: !w'.roots[id].state.Reserved?)
  {
    CancellingIsStill(w.roots);
  }

  lemma CommandsAreStill(w: World, e: Event)
    requires e.Pausing? || e.Disabling? || e.Resuming? || e.Sharing? || e.Restarting? || e.Forgetting?
    ensures var w' := Step(w, e);
            && NothingBegun(w, w')
            && (w.paused && !e.Resuming? ==> w'.paused)
            && (!w.saved.enabled ==> !w'.saved.enabled)
            && (w.cancelPending || w.active.None? ==> w'.cancelPending || w'.active.None?)
  {
    match e
    case Pausing(env) => PausingIsStill(w, env);
    case Disabling(env) => DisablingIsStill(w, env);
    case Restarting => RestartingIsStill(w);
    case Forgetting =>
    case Sharing(_) =>
    case Resuming(now, env) =>
  }

  lemma ApprovingIsStill(w: World, upkeep: bool, config: Config, foregroundCalls: nat, now: int, env: Env)
    ensures var w' := Approve(w, upkeep, config, foregroundCalls, now, env).w;
            && NothingBegun(w, w') && w'.paused == w.paused && w'.shares == w.shares
            && w'.active == w.active && w'.cancelPending == w.cancelPending && (w.paused ==> w' == w)
  {
    CancellingIsStill(w.roots);
  }

  /** Behind a closed gate nothing is begun, and a pause is lifted only by
      resuming, a disablement only by approving. */
  lemma WithheldStep(w: World, e: Event)
    requires Inv(w)
    requires (w.paused && !e.Resuming?) || (!w.saved.enabled && !e.Approving?)
    ensures var w' := Step(w, e);
            && NothingBegun(w, w')
            && (w.paused && !e.Resuming? ==> w'.paused)
            && (!w.saved.enabled && !e.Approving? ==> !w'.saved.enabled)
            && (w.cancelPending || w.active.None? ==> w'.cancelPending || w'.active.None?)
  {
    match e
    case Ticking(now, env) => TickBegins(w, now, env);
    case Revoking(name, env) => RevokingIsStill(w, name, env);
    case Recovering(env) => RecoveringIsStill(w, env);
    case ReservingUpkeep(name, expected, now, env) => UpkeepIsRefused(w, name, expected, now, env);
    case FinishingUpkeep(name, outcome, delivered, env) => FinishingUpkeepIsStill(w, name, outcome, delivered, env);
    case ReleasingUpkeep(name, env) => ReleasingUpkeepIsStill(w, name, env);
    case Approving(upkeep, config, calls, now, env) => ApprovingIsStill(w, upkeep, config, calls, now, env);
    case _ => CommandsAreStill(w, e);
  }

  predicate NoneResumes(events: seq<Event>) { forall i | 0 <= i < |events| :: !events[i].Resuming? }

  predicate NoneApproves(events: seq<Event>) { forall i | 0 <= i < |events| :: !events[i].Approving? }

  lemma {:induction false} WithheldRuns(w: World, events: seq<Event>)
    requires Inv(w)
    requires (w.paused && NoneResumes(events)) || (!w.saved.enabled && NoneApproves(events))
    ensures var w' := Run(w, events);
            && NothingBegun(w, w')
            && (w.paused && NoneResumes(events) ==> w'.paused)
            && (!w.saved.enabled && NoneApproves(events) ==> !w'.saved.enabled)
            && (w.cancelPending || w.active.None? ==> w'.cancelPending || w'.active.None?)
    decreases |events|
  {
    if events != [] {
      StepKeeps(w, events[0]);
      WithheldStep(w, events[0]);
      WithheldRuns(Step(w, events[0]), events[1..]);
    }
  }

  /** Wherever a run has come, once a pause has been written, no events but a
      resumption begin anything: no job is handed to the session and no root is
      reserved or dispatched, through restarts, forgetting and failures. Until then
      approval and upkeep are refused and change nothing. */
  lemma PauseHolds(before: seq<Event>, env: Env, after: seq<Event>)
    requires Holding !in env.faults && NoneResumes(after)
    ensures var past := Run(START, before);
            var w := Run(Step(past, Pausing(env)), after);
            && w.paused && NothingBegun(past, w)
            && (Saving !in env.faults ==> forall id | id in w.roots :: !w.roots[id].state.Reserved?)
            && (forall upkeep, config, calls, now, found ::
                  Approve(w, upkeep, config, calls, now, found) == After(w, Broken))
            && (forall name, expected, now, found ::
                  ReserveUpkeep(w, name, expected, now, found) == After(w, Broken))
  {
    RunKeeps(START, before);
    var past := Run(START, before);
    StepKeeps(past, Pausing(env));
    var paused := Step(past, Pausing(env));
    PausingIsStill(past, env);
    WithheldRuns(paused, after);
  }

  /** A disablement holds in the same way until work is approved anew; resuming
      does not lift it. */
  lemma DisablementHolds(before: seq<Event>, env: Env, after: seq<Event>)
    requires Saving !in env.faults && NoneApproves(after)
    ensures var past := Run(START, before);
            var w := Run(Step(past, Disabling(env)), after);
            && !w.saved.enabled && NothingBegun(past, w)
            && (forall id | id in w.roots :: !w.roots[id].state.Reserved?)
            && (forall name, expected, now, found ::
                  ReserveUpkeep(w, name, expected, now, found) == After(w, Broken))
  {
    RunKeeps(START, before);
    var past := Run(START, before);
    StepKeeps(past, Disabling(env));
    DisablingIsStill(past, env);
    WithheldRuns(Step(past, Disabling(env)), after);
  }

  lemma PausedTickEnds(w: World, now: int, env: Env)
    requires Inv(w) && w.paused && env.faults == {} && (w.cancelPending || w.active.None?)
    ensures Tick(w, now, env).w.active.None?
  {
    TickBegins(w, now, env);
    InterruptsAreCalm(w, now, env);
    var a := ApplyInterrupts(w, now, env);
    if w.cancelPending {
      InterruptEnds(w, env);
      var b := Interrupt(w, env);
      InterruptIsQuiet(w, env);
      QuietKeeps(w, b.w, env.faults);
      RevocationsAreQuiet(b.w, env);
    }
    assert a.w.active.None?;
    if a.flow == Next {
      var due := TickDue(a.w, now, env);
      if due.flow == Next { DueTickBegins(due.w, now, env); }
    }
  }

  lemma InterruptEnds(w: World, env: Env)
    requires w.cancelPending && env.faults == {}
    ensures Interrupt(w, env).w.active.None?
  {
    AbandonIsCalm(w.(cancelPending := false), env.faults);
  }

  /** A pause ends the active job at the next tick whose accesses work, whatever
      but a resumption comes between them. */
  lemma PauseEndsTheJob(before: seq<Event>, env: Env, after: seq<Event>, now: int, found: Env)
    requires {Holding, Saving} !! env.faults && NoneResumes(after) && found.faults == {}
    ensures Tick(Run(Step(Run(START, before), Pausing(env)), after), now, found).w.active.None?
  {
    RunKeeps(START, before);
    var past := Run(START, before);
    StepKeeps(past, Pausing(env));
    var paused := Step(past, Pausing(env));
    PausingIsStill(past, env);
    RunKeeps(paused, after);
    WithheldRuns(paused, after);
    PausedTickEnds(Run(paused, after), now, found);
  }

  // What is begun, step by step.

  /** A step begins at most one job, at a tick and under what is shared then. */
  predicate BeginsOne(w: World, w': World, e: Event) {
    || w'.begun == w.begun
    || (&& e.Ticking? && |w'.begun| == |w.begun| + 1 && w'.begun[..|w.begun|] == w.begun && e.env.material.Some?
        && var b := w'.begun[|w.begun|];
        && b.at == e.now && b.shares == w.shares && b.id == Board(e.env.material.value)
        && w.pending == Some(Pending(e.env.material.value, b.since)))
  }

  predicate NotesOnly(w: World, w': World, e: Event) {
    || w'.pending == w.pending || w'.pending.None?
    || (e.Ticking? && e.env.material.Some? && w'.pending == Some(Pending(e.env.material.value, e.now)))
  }

  lemma StepBegins(w: World, e: Event)
    requires Inv(w)
    ensures var w' := Step(w, e);
            && BeginsOne(w, w', e) && NotesOnly(w, w', e)
            && w'.shares <= w.shares + (if e.Sharing? then {e.name} else {})
  {
    match e
    case Ticking(now, env) => TickBegins(w, now, env);
    case Revoking(name, env) =>
      RevokingIsStill(w, name, env);
      RevokingNotesNothing(w, name, env);
    case Recovering(env) => RevocationsAreQuiet(w, env);
    case ReservingUpkeep(name, expected, now, env) => UpkeepBeginsNothing(w, name, expected, now, env);
    case FinishingUpkeep(name, outcome, delivered, env) => FinishingUpkeepIsStill(w, name, outcome, delivered, env);
    case ReleasingUpkeep(name, env) => ReleasingUpkeepIsStill(w, name, env);
    case Approving(upkeep, config, calls, now, env) => ApproveIsGranting(w, upkeep, config, calls, now, env);
    case _ => CommandsBeginNothing(w, e);
  }

  lemma CommandsBeginNothing(w: World, e: Event)
    requires e.Pausing? || e.Disabling? || e.Resuming? || e.Sharing? || e.Restarting? || e.Forgetting?
    ensures var w' := Step(w, e);
            && w'.begun == w.begun && w'.shares <= w.shares + (if e.Sharing? then {e.name} else {})
            && (w'.pending == w.pending || w'.pending.None?)
  {
    match e
    case Pausing(env) => PausingIsStill(w, env);
    case Disabling(env) => DisablingIsStill(w, env);
    case Restarting =>
    case Forgetting =>
    case Sharing(_) =>
    case Resuming(now, env) =>
  }

  lemma RevokingNotesNothing(w: World, name: Name, env: Env)
    requires Inv(w)
    ensures var w' := RevokeBoard(w, name, env).w; w'.pending == w.pending || w'.pending.None?
  {
    var w1 := Withdrawn(w, name).(cancelPending := true, pending := None);
    assert Inv(w1);
    DisableKeeps(w1, env);
    RevocationsAreQuiet(Disable(w1, env).w, env);
  }

  lemma UpkeepBeginsNothing(w: World, name: string, expected: Config, now: int, env: Env)
    ensures var w' := ReserveUpkeep(w, name, expected, now, env).w; w' == w.(roots := w'.roots)
  {
  }

  /** No job begun since was for the board. */
  predicate NoneFor(name: Name, past: World, w: World) {
    && |past.begun| <= |w.begun| && w.begun[..|past.begun|] == past.begun
    && forall i | |past.begun| <= i < |w.begun| ::
         w.begun[i].saved.config.Some? && w.begun[i].saved.config.value.scope != name
  }

  lemma NoneForTwice(name: Name, past: World, w: World, w': World)
    requires NoneFor(name, past, w) && NoneFor(name, w, w')
    ensures NoneFor(name, past, w')
  {
    assert w'.begun[..|past.begun|] == w'.begun[..|w.begun|][..|past.begun|];
    forall i | |past.begun| <= i < |w'.begun|
      ensures w'.begun[i].saved.config.Some? && w'.begun[i].saved.config.value.scope != name
    {
      if i < |w.begun| { assert w'.begun[i] == w'.begun[..|w.begun|][i]; }
    }
  }

  lemma UnsharedStep(w: World, e: Event, name: Name)
    requires Inv(w) && name !in w.shares && (e.Sharing? ==> e.name != name)
    ensures NoneFor(name, w, Step(w, e)) && name !in Step(w, e).shares
  {
    StepKeeps(w, e);
    StepBegins(w, e);
    if Step(w, e).begun != w.begun { assert Controlled(Step(w, e).begun[|w.begun|]); }
  }

  lemma {:induction false} UnsharedBeginsNothing(w: World, events: seq<Event>, name: Name)
    requires Inv(w) && name !in w.shares
    requires forall i | 0 <= i < |events| :: events[i].Sharing? ==> events[i].name != name
    ensures NoneFor(name, w, Run(w, events))
    decreases |events|
  {
    if events != [] {
      StepKeeps(w, events[0]);
      UnsharedStep(w, events[0], name);
      UnsharedBeginsNothing(Step(w, events[0]), events[1..], name);
      NoneForTwice(name, w, Step(w, events[0]), Run(w, events));
    }
  }

  /** Once a board's withdrawal has been written, no job is begun for it by any
      events until it is shared again; whatever is approved meanwhile. */
  lemma RevokedBoardStaysOut(before: seq<Event>, name: Name, env: Env, after: seq<Event>)
    requires Withdrawing !in env.faults
    requires forall i | 0 <= i < |after| :: after[i].Sharing? ==> after[i].name != name
    ensures var past := Run(START, before);
            NoneFor(name, past, Run(Step(past, Revoking(name, env)), after))
  {
    RunKeeps(START, before);
    var past := Run(START, before);
    StepKeeps(past, Revoking(name, env));
    RevokingIsStill(past, name, env);
    UnsharedBeginsNothing(Step(past, Revoking(name, env)), after, name);
  }

  // What a job's material was.

  /** A tick at that time found that material on the board. */
  predicate Sighted(events: seq<Event>, material: string, at: int) {
    exists k :: 0 <= k < |events| && events[k].Ticking? && events[k].now == at
      && events[k].env.material == Some(material)
  }

  predicate AllSighted(events: seq<Event>, w: World) {
    && (w.pending.Some? ==> Sighted(events, w.pending.value.material, w.pending.value.since))
    && forall i | 0 <= i < |w.begun| :: TwiceSighted(events, w.begun[i])
  }

  predicate TwiceSighted(events: seq<Event>, b: Begin) {
    b.id.Board? && Sighted(events, b.id.material, b.since) && Sighted(events, b.id.material, b.at)
  }

  lemma SightingStays(events: seq<Event>, e: Event, material: string, at: int)
    ensures Sighted(events, material, at) ==> Sighted(events + [e], material, at)
    ensures e.Ticking? && e.now == at && e.env.material == Some(material) ==> Sighted(events + [e], material, at)
  {
    if k :| 0 <= k < |events| && events[k].Ticking? && events[k].now == at
                      && events[k].env.material == Some(material) {
      assert (events + [e])[k] == events[k];
    }
    assert (events + [e])[|events|] == e;
  }

  lemma TwiceSightedStays(events: seq<Event>, e: Event, b: Begin)
    requires TwiceSighted(events, b)
    ensures TwiceSighted(events + [e], b)
  {
    SightingStays(events, e, b.id.material, b.since);
    SightingStays(events, e, b.id.material, b.at);
  }

  lemma NoteIsSighted(events: seq<Event>, w: World, w': World, e: Event)
    requires AllSighted(events, w) && NotesOnly(w, w', e) && w'.pending.Some?
    ensures Sighted(events + [e], w'.pending.value.material, w'.pending.value.since)
  {
    SightingStays(events, e, w'.pending.value.material, w'.pending.value.since);
  }

  lemma BegunIsSighted(events: seq<Event>, w: World, w': World, e: Event)
    requires AllSighted(events, w) && BeginsOne(w, w', e) && w'.begun != w.begun
    ensures TwiceSighted(events + [e], w'.begun[|w.begun|])
  {
    var b := w'.begun[|w.begun|];
    SightingStays(events, e, b.id.material, b.since);
    SightingStays(events, e, b.id.material, b.at);
  }

  lemma SightsGoOn(events: seq<Event>, w: World, w': World, e: Event)
    requires AllSighted(events, w) && BeginsOne(w, w', e) && NotesOnly(w, w', e)
    ensures AllSighted(events + [e], w')
  {
    if w'.pending.Some? { NoteIsSighted(events, w, w', e); }
    if w'.begun != w.begun { BegunIsSighted(events, w, w', e); }
    forall i | 0 <= i < |w'.begun| ensures TwiceSighted(events + [e], w'.begun[i]) {
      if i < |w.begun| {
        assert w'.begun[i] == w.begun[i];
        TwiceSightedStays(events, e, w.begun[i]);
      }
    }
  }

  lemma {:induction false} RunSights(events: seq<Event>)
    ensures AllSighted(events, Run(START, events))
    decreases |events|
  {
    if events != [] {
      var n := |events| - 1;
      RunSights(events[..n]);
      assert events[..n] + [events[n]] == events;
      RunKeeps(START, events[..n]);
      RunAppend(START, events[..n], events[n]);
      var w := Run(START, events[..n]);
      StepBegins(w, events[n]);
      SightsGoOn(events[..n], w, Step(w, events[n]), events[n]);
    }
  }

  /** The debounce is real. Of every job that any run begins, the material was on
      the board at the tick that began it, and at an earlier one at least ten
      seconds before; the board was shared, and the approval enabled, not paused
      and not past its end. */
  lemma BegunTwiceSeen(events: seq<Event>, i: nat)
    requires i < |Run(START, events).begun|
    ensures var b := Run(START, events).begun[i];
            && b.id.Board? && b.at - b.since >= 10
            && (exists k, l :: 0 <= k < |events| && 0 <= l < |events| && events[k].Ticking? && events[l].Ticking?
                  && events[k].now == b.since && events[l].now == b.at
                  && events[k].env.material == Some(b.id.material) == events[l].env.material)
            && b.saved.enabled && !b.saved.paused && b.saved.config.Some?
            && 0 <= b.at < b.saved.config.value.expiresAt && b.saved.config.value.scope in b.shares
            && !b.paused && !b.blocked
  {
    RunKeeps(START, events);
    RunSights(events);
    var b := Run(START, events).begun[i];
    assert Controlled(b);
    assert TwiceSighted(events, b);
  }

  // When commands succeed.

  /** Approval succeeds exactly when context is open and not paused, the board is
      shared where one is named, the calls are some and within the foreground's,
      the end is to come, and no access fails. Then just that is approved, and what
      was reserved under the old approval is cancelled. */
  lemma ApprovedExactlyWhen(w: World, upkeep: bool, config: Config, foregroundCalls: nat, now: int, env: Env)
    ensures var a := Approve(w, upkeep, config, foregroundCalls, now, env);
            && (a.flow.Done? <==>
                  && !w.blocked && !w.paused && (!upkeep ==> config.scope in w.shares)
                  && 0 < config.maxCalls <= foregroundCalls && 0 <= now < config.expiresAt
                  && {ReadingStatus, Saving, Allowing} !! env.faults && (upkeep ==> Charging !in env.faults))
            && (a.flow.Done? ==>
                  && a.w.saved.config == Some(config) && a.w.saved.enabled && !a.w.saved.paused
                  && a.w.saved.revision == w.saved.revision + 1
                  && a.w.upkeep == (if upkeep then Some(config.scope) else None)
                  && (forall id | id in a.w.roots :: !a.w.roots[id].state.Reserved?)
                  && a.w.pending.None? && (a.w.restoreAttempted <==> upkeep && w.restoreAttempted))
            && (!a.flow.Done? ==> a.flow.Broken?)
  {
  }

  /** Pausing and disabling succeed exactly when no access of theirs fails. Either
      saves its flag with the approval's terms as they were, cancels what was only
      reserved, and notes that the active job is to be cancelled. */
  lemma StoppedExactlyWhen(w: World, env: Env)
    ensures var a := Pause(w, env);
            && (a.flow.Done? <==> {Holding, Saving, Allowing} !! env.faults)
            && (a.flow.Done? ==>
                  && a.w.paused && a.w.saved == w.saved.(paused := true) && a.w.roots == CancelQueued(w.roots)
                  && a.w.cancelPending && a.w.pending.None? && a.w.blocked == w.blocked)
    ensures var a := Disable(w, env);
            && (a.flow.Done? <==> {Saving, Allowing} !! env.faults)
            && (a.flow.Done? ==>
                  && a.w.saved == w.saved.(enabled := false, paused := true) && a.w.roots == CancelQueued(w.roots)
                  && a.w.cancelPending && a.w.pending.None? && a.w.blocked == w.blocked && a.w.paused == w.paused)
  {
  }

  /** Resuming succeeds exactly when context is open, the approval that is enabled
      has not ended, and no access fails; then neither flag is up. */
  lemma ResumedExactlyWhen(w: World, now: int, env: Env)
    ensures var a := Resume(w, now, env);
            && (a.flow.Done? <==>
                  && !w.blocked && {ReadingStatus, Unholding} !! env.faults
                  && (w.saved.enabled ==>
                        && w.saved.config.Some? && 0 <= now < w.saved.config.value.expiresAt
                        && {Saving, Allowing} !! env.faults))
            && (a.flow.Done? ==> !a.w.paused && (w.saved.enabled ==> !a.w.saved.paused))
            && a.w == w.(paused := a.w.paused, saved := w.saved.(paused := a.w.saved.paused))
  {
  }

  /** An upkeep call is admitted exactly under the approval its caller expects,
      for its board, unpaused, with context open, nothing uncertain, the foreground
      idle and a call left; under an id of its own, and with no access failing. It
      is charged one call before it is sent, and ends no later than the approval. */
  lemma UpkeepAdmittedExactlyWhen(w: World, name: string, expected: Config, now: int, env: Env)
    ensures var a := ReserveUpkeep(w, name, expected, now, env);
            && (a.flow.Done? <==>
                  && !w.paused && !w.blocked && !env.nativeBusy && !env.unresolvedCalls
                  && (forall id | id in w.roots && w.roots[id].state.Unknown? :: id in w.acknowledged)
                  && w.saved.enabled && !w.saved.paused && w.saved.config == Some(expected)
                  && 0 <= now < expected.expiresAt && w.upkeep == Some(expected.scope)
                  && Spent(w.roots) < expected.maxCalls && Upkeep(name) !in w.roots
                  && 0 < expected.timeout && now + expected.timeout <= I64_MAX
                  && {Reserving, Dispatching, Charging} !! env.faults)
            && (a.flow.Done? ==>
                  a.w == w.(roots := w.roots[Upkeep(name) :=
                    Root(1, Min(now + expected.timeout, expected.expiresAt), Dispatched, w.saved.revision, None)]))
  {
  }

  // Receipts.

  /** At a tick that reaches it and whose accesses work, a completed receipt of one
      to four calls settles the active job as completed with just those calls. */
  lemma ReceiptSettlesTheJob(before: seq<Event>, now: int, env: Env)
    requires var w := Run(START, before);
             && w.active.Some? && !w.cancelPending && !w.blocked && !Overdue(w, now, env)
             && TickDue(w, now, env).flow.Next?
    requires env.faults == {} && env.receipt.Some? && 1 <= env.receipt.value <= 4
    ensures var w := Run(START, before);
            var w' := Tick(w, now, env).w;
            var id := w.active.value.id;
            && id in w'.roots && w'.roots[id].state.Completed? && w'.roots[id].confirmed == env.receipt
            && (w'.active.Some? ==> w'.active.value.id != id)
  {
    RunKeeps(START, before);
    var w := Run(START, before);
    assert ApplyInterrupts(w, now, env) == After(w, Next);
    var due := w.(lastTick := Some(now));
    DueTickSettles(due, now, env);
  }

  lemma DueTickSettles(w: World, now: int, env: Env)
    requires Inv(w) && w.active.Some? && env.faults == {} && env.receipt.Some? && 1 <= env.receipt.value <= 4
    ensures var w' := DueTick(w, now, env).w;
            var id := w.active.value.id;
            && id in w'.roots && w'.roots[id].state.Completed? && w'.roots[id].confirmed == env.receipt
            && (w'.active.Some? ==> w'.active.value.id != id)
  {
    var id := w.active.value.id;
    SettlingIsQuiet(w, now, env);
    var settled := SettleActive(w, now, env);
    QuietKeeps(w, settled.w, env.faults);
    assert settled.flow == Next && settled.w.active.None?;
    CheckIsLight(settled.w, Remaining(settled.w), now, env);
    var checked := CheckEligible(settled.w, Remaining(settled.w), now, env);
    LightIsQuiet(settled.w, settled.w, checked.w, env.faults);
    if checked.flow == Next {
      IdleBeginsNew(checked.w, now, env, id);
      IdleLeavesRoot(checked.w, now, env, id);
    }
  }

  lemma IdleLeavesRoot(w: World, now: int, env: Env, id: Id)
    requires id in w.roots
    ensures var w' := Idle(w, now, env).w; id in w'.roots && w'.roots[id] == w.roots[id]
  {
    SessionIsLight(w, env);
    var ready := SessionReady(w, env);
    if ready.flow == Next {
      DebounceIsLight(ready.w, now, env);
      var seen := Debounce(ready.w, now, env);
      if seen.flow == Next { DispatchLeavesRoot(seen.w, now, env, id); }
    }
  }

  lemma DispatchLeavesRoot(w: World, now: int, env: Env, id: Id)
    requires id in w.roots
    ensures var w' := DispatchBackground(w, now, env).w; id in w'.roots && w'.roots[id] == w.roots[id]
  {
    if w.pending.Some? && w.saved.config.Some? && Remaining(w) >= JOB_CALLS && !w.blocked && !w.paused {
      MarkedOnlyRoots(w, Board(w.pending.value.material), now, env.faults);
    }
  }
}
