/** When a tick begins or ends a job, what settles a root, and what restarting,
    forgetting and withdrawing leave: each as an exact condition or effect. */
module ControlEffects {
  import opened Wrappers
  import opened Control
  import opened ControlRuns
  import opened ControlGates
  import Sets

  // Beginning a job.

  /** The session can take a job of this owner: the foreground is idle, nothing runs
      in it, it is permitted for this very board, and it is ready. */
  predicate SessionFree(env: Env) {
    !env.nativeBusy && !env.busy && env.permission.Matching? && env.ready
  }

  /** The clock has moved on, and the last look was not a moment ago. */
  predicate MovedOn(w: World, now: int, env: Env) {
    !env.polledRecently && (w.lastTick.Some? ==> w.lastTick.value < now)
  }

  /** New material has stood on the board for ten seconds. */
  predicate Stood(w: World, now: int, env: Env) {
    && env.material.Some? && Board(env.material.value) !in w.roots
    && w.pending.Some? && w.pending.value.material == env.material.value && now - w.pending.value.since >= 10
  }

  /** A board approval that covers four more calls and their time. */
  ghost predicate Covers(w: World, now: int) {
    && Approved(w.saved, w.shares, now)
    && var config := w.saved.config.value;
    && w.upkeep != Some(config.scope) && Spent(w.roots) + 4 <= config.maxCalls
    && 0 < config.timeout && now + config.timeout <= I64_MAX
  }

  lemma CheckedExactlyWhen(w: World, now: int, env: Env)
    requires w.active.None? && !w.blocked && env.faults == {}
    ensures CheckEligible(w, Remaining(w), now, env).flow.Next? <==>
              && !env.nativeBusy && !w.paused && Approved(w.saved, w.shares, now)
              && w.upkeep != Some(w.saved.config.value.scope) && Remaining(w) > 0
    ensures CheckEligible(w, Remaining(w), now, env).flow.Next? ==> CheckEligible(w, Remaining(w), now, env).w == w
    ensures CheckEligible(w, Remaining(w), now, env).w.begun == w.begun
  {
  }

  lemma MarkedExactlyWhen(w: World, id: Id, now: int)
    ensures var a := ReserveAndMark(w, id, JOB_CALLS, now, {});
            && (a.flow.Next? <==>
                  && Dispatchable(w.saved, now) && now + w.saved.config.value.timeout <= I64_MAX
                  && 0 < w.saved.config.value.timeout && 4 <= Remaining(w) && id !in w.roots)
            && a.w == w.(roots := a.w.roots) && (a.flow.Next? ==> id in a.w.roots)
  {
  }

  lemma IdleBeginsExactlyWhen(w: World, now: int, env: Env)
    requires w.active.None? && !w.blocked && !w.paused && env.faults == {} && Approved(w.saved, w.shares, now)
    ensures Idle(w, now, env).w.begun != w.begun <==>
              && !env.busy && env.permission.Matching? && env.ready && Stood(w, now, env)
              && 4 <= Remaining(w) && 0 < w.saved.config.value.timeout
              && now + w.saved.config.value.timeout <= I64_MAX
  {
    SessionIsLight(w, env);
    var ready := SessionReady(w, env);
    if ready.flow == Next {
      assert ready.w == w;
      DebounceOnlyNotes(w, now, env);
      var seen := Debounce(w, now, env);
      if seen.flow == Next {
        assert seen.w == w;
        MarkedExactlyWhen(w, Board(w.pending.value.material), now);
      }
    }
  }

  /** With no job active, context open and no failures, a tick begins one exactly
      when the clock has moved on, the session is free for it, nothing is paused,
      a board approval covers it and new material has stood for ten seconds. */
  lemma BeginsExactlyWhen(w: World, now: int, env: Env)
    requires w.active.None? && !w.cancelPending && !w.blocked && env.faults == {}
    ensures Tick(w, now, env).w.begun != w.begun <==>
              MovedOn(w, now, env) && SessionFree(env) && !w.paused && Covers(w, now) && Stood(w, now, env)
  {
    assert ApplyInterrupts(w, now, env) == After(w, Next);
    if MovedOn(w, now, env) {
      var due := w.(lastTick := Some(now));
      assert SettleActive(due, now, env) == After(due, Next);
      CheckedExactlyWhen(due, now, env);
      if CheckEligible(due, Remaining(due), now, env).flow == Next { IdleBeginsExactlyWhen(due, now, env); }
    }
  }

  /** A tick that could begin a job but finds no session of this owner restores it,
      once: unless the native conversation has the foreground. With anything
      uncertain it blocks context instead. */
  lemma RestoresExactlyWhen(w: World, now: int, env: Env)
    requires w.active.None? && !w.cancelPending && !w.blocked && !w.paused && env.faults == {}
    requires MovedOn(w, now, env) && !env.nativeBusy && !env.busy && env.permission.Absent?
    requires Approved(w.saved, w.shares, now) && w.upkeep != Some(w.saved.config.value.scope) && Remaining(w) > 0
    ensures var w' := Tick(w, now, env).w;
            && (w'.restoreAttempted <==> w.restoreAttempted || !env.native)
            && (w'.blocked <==>
                  && !w.restoreAttempted && !env.native
                  && (env.unresolvedCalls
                      || exists id :: id in w.roots && w.roots[id].state.Unknown? && id !in w.acknowledged))
            && w'.begun == w.begun && w'.roots == w.roots
  {
    assert ApplyInterrupts(w, now, env) == After(w, Next);
    var due := w.(lastTick := Some(now));
    assert SettleActive(due, now, env) == After(due, Next);
    CheckedExactlyWhen(due, now, env);
  }

  // Ending one.

  /** What a tick that reaches the active job makes of it, if nothing fails. One
      that has ended without a receipt, or is past its deadline, is uncertain, and
      context is blocked; one that has not is left alone. With a receipt it is
      settled, which `ReceiptSettlesTheJob` says. */
  lemma UnreceiptedExactlyWhen(before: seq<Event>, now: int, env: Env)
    requires var w := Run(START, before);
             && w.active.Some? && !w.cancelPending && !w.blocked && MovedOn(w, now, env) && !env.overdue
    requires env.faults == {} && (env.receipt.Some? ==> env.receipt.value == 0 || env.receipt.value > 4)
    ensures var w := Run(START, before);
            var w' := Tick(w, now, env).w;
            var id := w.active.value.id;
            if env.terminal || now >= w.active.value.deadline
            then w'.active.None? && w'.blocked && id in w'.roots && w'.roots[id].state.Unknown? && w'.begun == w.begun
            else w'.active == w.active && !w'.blocked && w'.roots == w.roots && w'.begun == w.begun
  {
    RunKeeps(START, before);
    var w := Run(START, before);
    assert ApplyInterrupts(w, now, env) == After(w, Next);
    UnreceiptedTick(w.(lastTick := Some(now)), now, env);
  }

  lemma UnreceiptedTick(w: World, now: int, env: Env)
    requires Inv(w) && w.active.Some? && !w.blocked
    requires env.faults == {} && (env.receipt.Some? ==> env.receipt.value == 0 || env.receipt.value > 4)
    ensures var w' := DueTick(w, now, env).w;
            var id := w.active.value.id;
            if env.terminal || now >= w.active.value.deadline
            then w'.active.None? && w'.blocked && id in w'.roots && w'.roots[id].state.Unknown? && w'.begun == w.begun
            else w'.active == w.active && !w'.blocked && w'.roots == w.roots && w'.begun == w.begun
  {
    var settled := SettleActive(w, now, env);
    AbandonIsCalm(w, env.faults);
    CheckIsLight(settled.w, Remaining(settled.w), now, env);
    var checked := CheckEligible(settled.w, Remaining(settled.w), now, env);
    if env.terminal || now >= w.active.value.deadline {
      var finished := Finish(w.roots, w.active.value.id, Unknown, None);
      assert finished.Some?;
      assert settled == Abandon(w, env.faults);
    } else {
      assert settled == After(w, Next);
      CheckedNotBlocked(w, Remaining(w), now, env);
      if checked.flow == Next { assert SessionReady(checked.w, env) == After(checked.w, Done); }
    }
  }

  lemma CheckedNotBlocked(w: World, remaining: nat, now: int, env: Env)
    ensures CheckEligible(w, remaining, now, env).w.blocked == w.blocked
  {
  }

  /** A tick that comes too soon, at a time that stands still at worst, changes
      nothing. */
  lemma EarlyTickChangesNothing(w: World, now: int, env: Env)
    requires !w.cancelPending && !w.blocked && env.faults == {} && !env.overdue
    requires !MovedOn(w, now, env) && (w.lastTick.Some? ==> w.lastTick.value <= now)
    ensures Tick(w, now, env).w == w
  {
    assert ApplyInterrupts(w, now, env) == After(w, Next);
  }

  // What completes.

  /** Whatever is completed was so before. */
  predicate NoneCompleted(m: map<Id, Root>, m': map<Id, Root>) {
    forall id | id in m' && m'[id].state.Completed? :: id in m && m[id] == m'[id]
  }

  lemma UncertainCompletesNone(roots: map<Id, Root>, id: Id, outcome: Outcome)
    requires !outcome.Completed?
    ensures var f := Finish(roots, id, outcome, None); f.Some? ==> NoneCompleted(roots, f.value)
  {
  }

  lemma AbandonCompletesNone(w: World, faults: set<Fault>)
    ensures NoneCompleted(w.roots, Abandon(w, faults).w.roots)
  {
    if w.active.Some? { UncertainCompletesNone(w.roots, w.active.value.id, Unknown); }
  }

  lemma NoneCompletedTwice(a: map<Id, Root>, b: map<Id, Root>, c: map<Id, Root>)
    requires NoneCompleted(a, b) && NoneCompleted(b, c)
    ensures NoneCompleted(a, c)
  {
  }

  lemma InterruptCompletesNone(w: World, env: Env)
    ensures NoneCompleted(w.roots, Interrupt(w, env).w.roots)
  {
    AbandonCompletesNone(w.(cancelPending := false), env.faults);
  }

  lemma OverdueCompletesNone(w: World, now: int, env: Env)
    ensures NoneCompleted(w.roots, AbandonOverdue(w, now, env).w.roots)
  {
    AbandonCompletesNone(w, env.faults);
  }

  lemma InterruptsCompleteNone(w: World, now: int, env: Env)
    requires Inv(w)
    ensures var a := ApplyInterrupts(w, now, env);
            NoneCompleted(w.roots, a.w.roots) && (a.w.active == w.active || a.w.active.None?)
  {
    InterruptsAreCalm(w, now, env);
    InterruptCompletesNone(w, env);
    InterruptIsQuiet(w, env);
    var a := Interrupt(w, env);
    if a.flow == Next && ReadingFlags !in env.faults {
      QuietKeeps(w, a.w, env.faults);
      RevocationsAreQuiet(a.w, env);
      var b := if a.w.blocked then FinishRevocations(a.w, env) else a;
      assert b.w.roots == a.w.roots;
      OverdueCompletesNone(b.w, now, env);
      NoneCompletedTwice(w.roots, b.w.roots, AbandonOverdue(b.w, now, env).w.roots);
    }
  }

  lemma IdleCompletesNone(w: World, now: int, env: Env)
    ensures NoneCompleted(w.roots, Idle(w, now, env).w.roots)
  {
    SessionIsLight(w, env);
    var ready := SessionReady(w, env);
    if ready.flow == Next {
      DebounceOnlyNotes(ready.w, now, env);
      var seen := Debounce(ready.w, now, env);
      if seen.flow == Next { DispatchCompletesNone(seen.w, now, env); }
    }
  }

  lemma DispatchCompletesNone(w: World, now: int, env: Env)
    ensures NoneCompleted(w.roots, DispatchBackground(w, now, env).w.roots)
  {
    if w.pending.Some? && w.saved.config.Some? && Remaining(w) >= JOB_CALLS && !w.blocked && !w.paused {
      var id := Board(w.pending.value.material);
      MarkingCompletesNone(w, id, now, env.faults);
      var marked := ReserveAndMark(w, id, JOB_CALLS, now, env.faults);
      if marked.flow == Next { SendingCompletesNone(marked.w, id, w.pending.value.since, now, env); }
    }
  }

  lemma MarkingCompletesNone(w: World, id: Id, now: int, faults: set<Fault>)
    ensures var a := ReserveAndMark(w, id, JOB_CALLS, now, faults);
            && NoneCompleted(w.roots, a.w.roots) && a.w.saved == w.saved
            && (a.flow.Next? ==> id in a.w.roots && w.saved.config.Some?)
  {
  }

  lemma SendingCompletesNone(w: World, id: Id, since: int, now: int, env: Env)
    requires id in w.roots && w.saved.config.Some?
    ensures NoneCompleted(w.roots, Send(w, id, since, now, env).w.roots)
  {
    UncertainCompletesNone(w.roots, id, Unknown);
  }

  /** The active job was confirmed with the calls of its receipt. */
  predicate Confirms(w: World, w': World, env: Env, id: Id) {
    && w.active.Some? && w.active.value.id == id && env.receipt.Some? && 1 <= env.receipt.value <= 4
    && id in w'.roots && w'.roots[id].confirmed == env.receipt
  }

  lemma SettlingCompletes(w: World, now: int, env: Env, id: Id)
    requires Inv(w)
    ensures var w' := SettleActive(w, now, env).w;
            id in w'.roots && w'.roots[id].state.Completed? && !(id in w.roots && w.roots[id] == w'.roots[id]) ==>
              Confirms(w, w', env, id)
  {
    AbandonCompletesNone(w, env.faults);
    if w.active.Some? && Measured(env).Some? { ConfirmingCompletes(w, w.active.value, env, id); }
  }

  lemma ConfirmingCompletes(w: World, active: Active, env: Env, id: Id)
    requires Measured(env).Some?
    ensures var w' := Confirm(w, active, env).w;
            id in w'.roots && w'.roots[id].state.Completed? && !(id in w.roots && w.roots[id] == w'.roots[id]) ==>
              && active.id == id && w'.roots[id].confirmed == env.receipt && 1 <= env.receipt.value <= 4
  {
  }

  lemma TickCompletes(w: World, now: int, env: Env, id: Id)
    requires Inv(w)
    ensures NewlyCompleted(w, Tick(w, now, env).w, id) ==> Confirms(w, Tick(w, now, env).w, env, id)
  {
    InterruptsCompleteNone(w, now, env);
    InterruptsAreQuiet(w, now, env);
    var a := ApplyInterrupts(w, now, env);
    QuietKeeps(w, a.w, env.faults);
    if a.flow == Next {
      var due := TickDue(a.w, now, env);
      if due.flow == Next { DueTickCompletes(due.w, now, env, id); }
    }
  }

  predicate NewlyCompleted(w: World, w': World, id: Id) {
    id in w'.roots && w'.roots[id].state.Completed? && !(id in w.roots && w.roots[id] == w'.roots[id])
  }

  lemma DueTickCompletes(w: World, now: int, env: Env, id: Id)
    requires Inv(w)
    ensures NewlyCompleted(w, DueTick(w, now, env).w, id) ==> Confirms(w, DueTick(w, now, env).w, env, id)
  {
    SettlingCompletes(w, now, env, id);
    var settled := SettleActive(w, now, env);
    if settled.flow == Next {
      CheckIsLight(settled.w, Remaining(settled.w), now, env);
      var checked := CheckEligible(settled.w, Remaining(settled.w), now, env);
      if checked.flow == Next { IdleCompletesNone(checked.w, now, env); }
    }
  }

  /** No completed board root comes of it. */
  predicate BoardsStay(m: map<Id, Root>, m': map<Id, Root>) {
    forall id | id in m' && id.Board? && m'[id].state.Completed? :: id in m && m[id] == m'[id]
  }

  lemma UpkeepLeavesBoards(roots: map<Id, Root>, name: string, outcome: Outcome, measured: Option<nat>, confirmed: nat)
    ensures var r := Reconciled(roots, Upkeep(name), confirmed);
            var f, g := Finish(roots, Upkeep(name), outcome, measured), Finish(r, Upkeep(name), outcome, measured);
            && BoardsStay(roots, r) && (f.Some? ==> BoardsStay(roots, f.value))
            && (g.Some? ==> BoardsStay(roots, g.value))
  {
  }

  lemma UpkeepEventsLeaveBoards(w: World, e: Event)
    requires e.ReservingUpkeep? || e.FinishingUpkeep? || e.ReleasingUpkeep?
    ensures BoardsStay(w.roots, Step(w, e).roots)
  {
    match e
    case ReservingUpkeep(name, expected, now, env) => ReservingLeavesBoards(w, name, expected, now, env);
    case FinishingUpkeep(name, outcome, _, _) => UpkeepLeavesBoards(w.roots, name, outcome, Some(1), 1);
    case ReleasingUpkeep(name, _) => UpkeepLeavesBoards(w.roots, name, Completed, Some(0), 0);
  }

  lemma ReservingLeavesBoards(w: World, name: string, expected: Config, now: int, env: Env)
    ensures BoardsStay(w.roots, ReserveUpkeep(w, name, expected, now, env).w.roots)
  {
    var marked := ReserveAndMark(w, Upkeep(name), 1, now, env.faults);
    assert BoardsStay(w.roots, marked.w.roots);
    UpkeepLeavesBoards(marked.w.roots, name, Failed, None, 0);
  }

  lemma CancellingLeavesBoards(roots: map<Id, Root>)
    ensures BoardsStay(roots, roots) && BoardsStay(roots, CancelQueued(roots))
  {
  }

  lemma RestartingLeavesBoards(w: World)
    ensures BoardsStay(w.roots, Restarted(w).roots)
  {
  }

  /** Most commands leave the roots, or cancel those that are only reserved. */
  lemma CommandsOnlyCancel(w: World, e: Event)
    requires e.Pausing? || e.Resuming? || e.Disabling? || e.Sharing? || e.Forgetting?
    ensures Step(w, e).roots == w.roots || Step(w, e).roots == CancelQueued(w.roots)
  {
    match e
    case Pausing(env) => PausingOnlyCancels(w, env);
    case Disabling(env) => DisablingOnlyCancels(w, env);
    case Resuming(now, env) => assert Resume(w, now, env).w.roots == w.roots;
    case Sharing(_) =>
    case Forgetting => assert Forgotten(w).roots == w.roots;
  }

  lemma PausingOnlyCancels(w: World, env: Env)
    ensures var roots := Pause(w, env).w.roots; roots == w.roots || roots == CancelQueued(w.roots)
  {
  }

  lemma DisablingOnlyCancels(w: World, env: Env)
    ensures var roots := Disable(w, env).w.roots; roots == w.roots || roots == CancelQueued(w.roots)
  {
  }

  lemma ApprovingOnlyCancels(w: World, upkeep: bool, config: Config, foregroundCalls: nat, now: int, env: Env)
    ensures var roots := Approve(w, upkeep, config, foregroundCalls, now, env).w.roots;
            roots == w.roots || roots == CancelQueued(w.roots)
  {
    ApproveIsGranting(w, upkeep, config, foregroundCalls, now, env);
  }

  lemma RevokingOnlyCancels(w: World, name: Name, env: Env)
    requires Inv(w)
    ensures var roots := RevokeBoard(w, name, env).w.roots; roots == w.roots || roots == CancelQueued(w.roots)
  {
    var w1 := Withdrawn(w, name).(cancelPending := true, pending := None);
    assert w1.roots == w.roots;
    DisableKeeps(w1, env);
    var disabled := Disable(w1, env);
    RevocationsAreQuiet(disabled.w, env);
    assert FinishRevocations(disabled.w, env).w.roots == disabled.w.roots;
  }

  lemma CommandsLeaveBoards(w: World, e: Event)
    requires Inv(w) && !e.Ticking? && !e.ReservingUpkeep? && !e.FinishingUpkeep? && !e.ReleasingUpkeep?
    ensures BoardsStay(w.roots, Step(w, e).roots)
  {
    CancellingLeavesBoards(w.roots);
    match e
    case Revoking(name, env) => RevokingOnlyCancels(w, name, env);
    case Recovering(env) => RevocationsAreQuiet(w, env);
    case Restarting => RestartingLeavesBoards(w);
    case Approving(upkeep, config, calls, now, env) => ApprovingOnlyCancels(w, upkeep, config, calls, now, env);
    case _ => CommandsOnlyCancel(w, e);
  }

  /** A tick of the run at which this job was active found its completed receipt. */
  ghost predicate ReceiptFound(events: seq<Event>, id: Id, calls: nat) {
    exists k :: 0 <= k < |events| && FoundAt(events, k, id, calls)
  }

  ghost predicate FoundAt(events: seq<Event>, k: nat, id: Id, calls: nat)
    requires k < |events|
  {
    && events[k].Ticking? && events[k].env.receipt == Some(calls)
    && Run(START, events[..k]).active.Some? && Run(START, events[..k]).active.value.id == id
  }

  /** Over any run, a board job is completed only by its own receipt, of one to four
      calls, found at a tick while it was active; and just those are charged. */
  lemma {:induction false} CompletionsAreReceipted(events: seq<Event>, material: string)
    ensures var roots := Run(START, events).roots;
            var id := Board(material);
            id in roots && roots[id].state.Completed? ==>
              && roots[id].confirmed.Some? && 1 <= roots[id].confirmed.value <= 4
              && Charge(roots[id]) == roots[id].confirmed.value
              && ReceiptFound(events, id, roots[id].confirmed.value)
    decreases |events|
  {
    var id := Board(material);
    if events != [] {
      var n := |events| - 1;
      var w, e := Run(START, events[..n]), events[n];
      assert events[..n] + [e] == events;
      RunAppend(START, events[..n], e);
      RunKeeps(START, events[..n]);
      CompletionsAreReceipted(events[..n], material);
      var w' := Step(w, e);
      match e {
        case Ticking(now, env) => TickCompletes(w, now, env, id);
        case ReservingUpkeep(_, _, _, _) => UpkeepEventsLeaveBoards(w, e);
        case FinishingUpkeep(_, _, _, _) => UpkeepEventsLeaveBoards(w, e);
        case ReleasingUpkeep(_, _) => UpkeepEventsLeaveBoards(w, e);
        case _ => CommandsLeaveBoards(w, e);
      }
      if id in w'.roots && w'.roots[id].state.Completed? {
        if id in w.roots && w.roots[id] == w'.roots[id] {
          var calls := w.roots[id].confirmed.value;
          var k :| 0 <= k < n && FoundAt(events[..n], k, id, calls);
          assert events[..n][..k] == events[..k] && FoundAt(events, k, id, calls);
        } else {
          assert FoundAt(events, n, id, w'.roots[id].confirmed.value);
        }
      }
    }
  }

  // Upkeep.

  /** The root can take the outcome, and its measurement if that is completion. */
  predicate CanEnd(root: Root, outcome: Outcome, calls: nat, known: bool) {
    && (outcome.Completed? ==> calls <= root.calls)
    && (|| root.state.Dispatched?
        || (root.state == outcome
            && (outcome.Completed? ==> root.confirmed.None? || root.confirmed == Some(calls)))
        || (outcome.Completed? && known && root.state.Unknown? && root.calls == 1))
  }

  lemma EndedExactlyWhen(roots: map<Id, Root>, id: Id, outcome: Outcome, calls: nat, known: bool)
    requires Within(roots) && (known ==> outcome.Completed?) && calls <= 1
    ensures var r := if known then Reconciled(roots, id, calls) else roots;
            var f := Finish(r, id, outcome, Some(calls));
            && (f.Some? <==> id in roots && CanEnd(roots[id], outcome, calls, known))
            && (f.Some? ==>
                  && id in f.value && f.value[id].state == outcome
                  && (outcome.Completed? ==> f.value[id].confirmed == Some(calls))
                  && f.value - {id} == roots - {id})
  {
  }

  /** An upkeep call ends as its worker says, and costs its one call if completed,
      exactly when its root is there to end: dispatched, already ended so, or made
      unknown by a restart and then delivered. */
  lemma UpkeepFinishedExactlyWhen(before: seq<Event>, name: string, outcome: Outcome, delivered: bool, env: Env)
    requires env.faults == {}
    ensures var w, id := Run(START, before), Upkeep(name);
            var a := FinishUpkeep(w, name, outcome, delivered, env);
            && (a.flow.Done? <==> id in w.roots && CanEnd(w.roots[id], outcome, 1, delivered))
            && (a.flow.Done? ==>
                  && id in a.w.roots && a.w.roots[id].state == outcome
                  && (outcome.Completed? ==> a.w.roots[id].confirmed == Some(1))
                  && a.w == w.(roots := a.w.roots) && a.w.roots - {id} == w.roots - {id})
  {
    RunKeeps(START, before);
    EndedExactlyWhen(Run(START, before).roots, Upkeep(name), outcome, 1, outcome.Completed? && delivered);
  }

  /** A call that provably never left is completed at no cost, in the same way. */
  lemma UpkeepReleasedExactlyWhen(before: seq<Event>, name: string, env: Env)
    requires env.faults == {}
    ensures var w, id := Run(START, before), Upkeep(name);
            var a := ReleaseUpkeep(w, name, env);
            && (a.flow.Done? <==> id in w.roots && CanEnd(w.roots[id], Completed, 0, true))
            && (a.flow.Done? ==>
                  && id in a.w.roots && a.w.roots[id].state.Completed? && Charge(a.w.roots[id]) == 0
                  && a.w == w.(roots := a.w.roots) && a.w.roots - {id} == w.roots - {id})
  {
    RunKeeps(START, before);
    var roots, id := Run(START, before).roots, Upkeep(name);
    EndedExactlyWhen(roots, id, Completed, 0, true);
    EndedExactlyWhen(roots, id, Completed, 0, false);
  }

  // Around the controller.

  /** A restart forgets the active job and the noted material, abandons what was
      only reserved, makes unknown what was dispatched and leaves all else; and a
      pending revocation blocks context. */
  lemma RestartAbandons(w: World)
    ensures var w' := Step(w, Restarting);
            && w'.active.None? && w'.pending.None? && w'.lastTick.None? && !w'.cancelPending && !w'.restoreAttempted
            && (w'.blocked <==> w.blocked || exists n :: n in w.revocations)
            && w'.roots.Keys == w.roots.Keys
            && (forall id | id in w.roots ::
                  w'.roots[id] == match w.roots[id].state
                    case Reserved => w.roots[id].(state := Abandoned)
                    case Dispatched => w.roots[id].(state := Unknown)
                    case _ => w.roots[id])
            && w'.paused == w.paused && w'.saved == w.saved && w'.shares == w.shares && w'.begun == w.begun
            && w'.revocations == w.revocations && w'.upkeep == w.upkeep && w'.acknowledged == w.acknowledged
  {
    if w.revocations != map[] { var n := Sets.Member(w.revocations.Keys); }
  }

  /** Forgetting everything withdraws every share, keeps every revocation that was
      pending, blocks context and takes the approval away; what was charged and
      acknowledged stays, and so does a pause. */
  lemma ForgettingWithdraws(w: World)
    ensures var w' := Step(w, Forgetting);
            && w'.shares == {} && w'.blocked && !w'.saved.enabled && w'.saved.config.None?
            && (forall n :: n in w'.revocations <==> n in w.revocations || n in w.shares)
            && (forall n | n in w.revocations :: w'.revocations[n] == w.revocations[n])
            && w'.roots == w.roots && w'.acknowledged == w.acknowledged && w'.active == w.active
            && w'.paused == w.paused
  {
  }

  /** Once a shared board's withdrawal is written, context is blocked, and its
      revocation is on record until its memory is forgotten and cleaned up. */
  lemma WithdrawalIsRecorded(before: seq<Event>, name: Name, env: Env)
    requires Withdrawing !in env.faults && name in Run(START, before).shares
    ensures var w := Run(START, before);
            var w' := Step(w, Revoking(name, env));
            && name !in w'.shares && w'.blocked && w'.cancelPending && w'.pending.None?
            && (name !in w'.revocations ==>
                  && name in env.cleans
                  && (name in env.forgets || (name in w.revocations && w.revocations[name].Some?)))
  {
    RunKeeps(START, before);
    var w := Run(START, before);
    RevokingIsStill(w, name, env);
    WithdrawalStays(w, name, env);
  }

  lemma WithdrawalStays(w: World, name: Name, env: Env)
    requires Inv(w) && Withdrawing !in env.faults && name in w.shares
    ensures var w' := RevokeBoard(w, name, env).w;
            && w'.blocked && w'.cancelPending && w'.pending.None?
            && (name !in w'.revocations ==>
                  && name in env.cleans
                  && (name in env.forgets || (name in w.revocations && w.revocations[name].Some?)))
  {
    var w1 := Withdrawn(w, name).(cancelPending := true, pending := None);
    assert Inv(w1) && name in w1.revocations && w1.blocked;
    DisableKeeps(w1, env);
    var disabled := Disable(w1, env);
    DisablingStops(w1, env);
    if disabled.flow != Broken {
      RevocationsAreQuiet(disabled.w, env);
      var finished := FinishRevocations(disabled.w, env).w;
      assert finished.blocked && finished.cancelPending && finished.pending.None?;
      if name !in finished.revocations { FinishedWasCleaned(disabled.w, env, name); }
    }
  }

  lemma DisablingStops(w: World, env: Env)
    requires w.cancelPending && w.pending.None?
    ensures var w' := Disable(w, env).w;
            w'.revocations == w.revocations && w'.blocked == w.blocked && w'.cancelPending && w'.pending.None?
  {
  }

  lemma FinishedWasCleaned(w: World, env: Env, n: Name)
    requires n in w.revocations && n !in FinishRevocations(w, env).w.revocations
    ensures n in env.cleans && (n in env.forgets || w.revocations[n].Some?)
  {
    var names := Sets.Ascending(w.revocations.Keys);
    Sets.AscendingLists(w.revocations.Keys);
    assert forall i | 0 <= i < |names| :: names[i] in names;
    GoneWasCleaned(w, names, env, n);
  }

  lemma {:induction false} GoneWasCleaned(w: World, names: seq<Name>, env: Env, n: Name)
    requires forall i | 0 <= i < |names| :: names[i] in w.revocations
    requires forall i, j | 0 <= i < j < |names| :: names[i] != names[j]
    requires n in w.revocations && n !in FinishAll(w, names, env).w.revocations
    ensures n in env.cleans && (n in env.forgets || w.revocations[n].Some?)
    decreases |names|
  {
    if names != [] {
      var first := FinishOne(w, names[0], env);
      if first.flow == Next && names[0] != n { GoneWasCleaned(first.w, names[1..], env, n); }
    }
  }
}
