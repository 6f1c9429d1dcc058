/** The controller as it runs: fields updated in place, one method for each of
    its operations, each leaving exactly the state the model says. */
module Controller {
  import opened Wrappers
  import Control
  import opened ControlRuns
  import Sets

  type Env = Control.Env
  type Flow = Control.Flow
  type Id = Control.Id
  type Root = Control.Root
  type Fault = Control.Fault
  type Name = Control.Name

  /** The sum an allowance query computes over all roots. */
  method TotalSpent(roots: map<Id, Root>) returns (total: nat)
    ensures total == Control.Spent(roots)
  {
    var rest := roots;
    total := 0;
    while rest != map[]
      invariant Control.Spent(roots) == total + Control.Spent(rest)
      decreases |rest|
    {
      var id := Sets.AnyOf(rest.Keys);
      SpentWithout(rest, id);
      total := total + Control.Charge(rest[id]);
      rest := rest - {id};
    }
  }

  class Host {
    var paused: bool
    var blocked: bool
    var shares: set<Name>
    var revocations: map<Name, Option<nat>>
    var upkeep: Option<Name>
    var acknowledged: set<Id>
    var roots: map<Id, Root>
    var saved: Control.Saved
    var active: Option<Control.Active>
    var pending: Option<Control.Pending>
    var lastTick: Option<int>
    var cancelPending: bool
    var restoreAttempted: bool
    ghost var begun: seq<Control.Begin>
    ghost var granted: nat

    ghost function Now(): Control.World
      reads this
    {
      Control.World(paused, blocked, shares, revocations, upkeep, acknowledged, roots, saved,
                    active, pending, lastTick, cancelPending, restoreAttempted, begun, granted)
    }

    method BlockContext(faults: set<Fault>) returns (flow: Flow)
      modifies this`pending, this`blocked
      ensures Control.After(Now(), flow) == Control.BlockContext(old(Now()), faults)
    {
      pending := None;
      if Control.Blocking in faults {
        return Control.Broken;
      }
      blocked := true;
      flow := if Control.Allowing in faults then Control.Broken else Control.Next;
    }

    /** Records an outcome, or changes nothing. */
    method FinishMeasured(id: Id, outcome: Control.Outcome, measured: Option<nat>) returns (ok: bool)
      modifies this`roots
      ensures ok == Control.Finish(old(roots), id, outcome, measured).Some?
      ensures roots == if ok then Control.Finish(old(roots), id, outcome, measured).value else old(roots)
    {
      if id !in roots {
        return false;
      }
      var current := roots[id];
      var calls := if outcome.Completed? then measured else None;
      if calls.Some? && calls.value > current.calls {
        return false;
      }
      if current.confirmed.Some? && calls.Some? && current.confirmed != calls {
        return false;
      }
      if !current.state.Dispatched? && current.state != outcome {
        return false;
      }
      var confirmed := if current.confirmed.Some? then current.confirmed else calls;
      roots := roots[id := current.(state := outcome, confirmed := confirmed)];
      ok := true;
    }

    /** The active job is dropped first: if its settlement fails it stays so. */
    method AbandonActive(faults: set<Fault>) returns (flow: Flow)
      modifies this
      ensures Control.After(Now(), flow) == Control.Abandon(old(Now()), faults)
    {
      if active.None? {
        return Control.Next;
      }
      var id := active.value.id;
      active := None;
      if Control.Settling in faults {
        return Control.Broken;
      }
      var ok := FinishMeasured(id, Control.RootState.Unknown, None);
      if !ok {
        return Control.Broken;
      }
      flow := BlockContext(faults);
    }

    method FinishRevocation(name: Name, env: Env) returns (flow: Flow)
      requires name in revocations
      modifies this`revocations
      ensures Control.After(Now(), flow) == Control.FinishOne(old(Now()), name, env)
    {
      if revocations[name].None? {
        if name !in env.forgets {
          return Control.Broken;
        }
        revocations := revocations[name := Some(env.epoch)];
      }
      if name !in env.cleans {
        return Control.Broken;
      }
      revocations := revocations - {name};
      flow := Control.Next;
    }

    method FinishEach(names: seq<Name>, env: Env) returns (flow: Flow)
      requires forall i | 0 <= i < |names| :: names[i] in revocations
      requires forall i, j | 0 <= i < j < |names| :: names[i] != names[j]
      modifies this`revocations
      ensures Control.After(Now(), flow) == Control.FinishAll(old(Now()), names, env)
    {
      for i := 0 to |names|
        invariant forall k | i <= k < |names| :: names[k] in revocations
        invariant Control.FinishAll(old(Now()), names, env) == Control.FinishAll(Now(), names[i..], env)
      {
        assert names[i..][0] == names[i] && names[i..][1..] == names[i + 1..];
        flow := FinishRevocation(names[i], env);
        if flow != Control.Next {
          return;
        }
      }
      flow := Control.Next;
    }

    method FinishRevocations(env: Env) returns (flow: Flow)
      modifies this`revocations
      ensures Control.After(Now(), flow) == Control.FinishRevocations(old(Now()), env)
    {
      var names := Sets.Ascending(revocations.Keys);
      Sets.AscendingLists(revocations.Keys);
      assert forall i | 0 <= i < |names| :: names[i] in names;
      flow := FinishEach(names, env);
    }

    method Interrupt(env: Env) returns (flow: Flow)
      modifies this
      ensures Control.After(Now(), flow) == Control.Interrupt(old(Now()), env)
    {
      if !cancelPending {
        return Control.Next;
      }
      if Control.Cancelling in env.faults {
        return Control.Broken;
      }
      cancelPending := false;
      flow := AbandonActive(env.faults);
    }

    method ApplyControlInterrupts(now: int, env: Env) returns (flow: Flow)
      modifies this
      ensures Control.After(Now(), flow) == Control.ApplyInterrupts(old(Now()), now, env)
    {
      flow := Interrupt(env);
      if flow != Control.Next {
        return;
      }
      if Control.ReadingFlags in env.faults {
        return Control.Broken;
      }
      if blocked {
        flow := FinishRevocations(env);
        if flow != Control.Next {
          return;
        }
      }
      flow := AbandonOverdue(now, env);
    }

    /** A clock that stands still or goes back cannot extend a job. */
    method AbandonOverdue(now: int, env: Env) returns (flow: Flow)
      modifies this
      ensures Control.After(Now(), flow) == Control.AbandonOverdue(old(Now()), now, env)
    {
      if !(active.Some? && (env.overdue || (lastTick.Some? && now < lastTick.value))) {
        return Control.Next;
      }
      if Control.Cancelling in env.faults {
        return Control.Broken;
      }
      flow := AbandonActive(env.faults);
    }

    method SettleActive(now: int, env: Env) returns (flow: Flow)
      modifies this
      ensures Control.After(Now(), flow) == Control.SettleActive(old(Now()), now, env)
    {
      flow := Control.Next;
      if active.Some? {
        if Control.ReadingReceipt in env.faults {
          return Control.Broken;
        }
        if env.receipt.Some? && 1 <= env.receipt.value <= Control.JOB_CALLS {
          if Control.Confirming in env.faults {
            return Control.Broken;
          }
          var ok := FinishMeasured(active.value.id, Control.RootState.Completed, env.receipt);
          if !ok {
            return Control.Broken;
          }
          active := None;
        } else if now >= active.value.deadline {
          if Control.Cancelling in env.faults {
            return Control.Broken;
          }
          flow := AbandonActive(env.faults);
        } else if env.terminal {
          flow := AbandonActive(env.faults);
        }
      }
    }

    /** The calls the saved approval still allows. */
    method RemainingCalls() returns (remaining: nat)
      ensures remaining == Control.Remaining(Now())
    {
      var spent := TotalSpent(roots);
      remaining := if saved.config.None? then 0 else Control.Minus(saved.config.value.maxCalls, spent);
    }

    method EligibleBackground(now: int, env: Env) returns (flow: Flow)
      modifies this`pending
      ensures Control.After(Now(), flow) == Control.CheckEligible(old(Now()), Control.Remaining(old(Now())), now, env)
    {
      var remaining := RemainingCalls();
      var status := Control.StatusOf(saved, remaining, now);
      if Control.ReadingStatus in env.faults {
        return Control.Broken;
      }
      if env.nativeBusy {
        return Control.Done;
      }
      if !paused && !blocked && (status.Enabled? || status.Exhausted?) && saved.config.Some?
        && upkeep == Some(saved.config.value.scope) {
        return Control.Done;
      }
      if saved.config.None? || paused || blocked || !(status.Enabled? || (status.Exhausted? && active.Some?)) {
        pending := None;
        return if Control.Allowing in env.faults then Control.Broken else Control.Done;
      }
      if saved.config.value.scope !in shares {
        return if Control.Allowing in env.faults then Control.Broken else Control.Done;
      }
      flow := if Control.Allowing in env.faults || Control.Observing in env.faults then Control.Broken
        else Control.Next;
    }

    method BackgroundSessionReady(env: Env) returns (flow: Flow)
      modifies this
      ensures Control.After(Now(), flow) == Control.SessionReady(old(Now()), env)
    {
      if active.Some? || env.busy {
        return Control.Done;
      }
      if env.permission.Absent? {
        flow := RestoreBackgroundSession(env);
      } else {
        flow := if env.permission.Matching? && env.ready then Control.Next else Control.Done;
      }
    }

    method RestoreBackgroundSession(env: Env) returns (flow: Flow)
      modifies this
      ensures Control.After(Now(), flow) == Control.RestoreSession(old(Now()), env)
    {
      if env.native || restoreAttempted {
        return Control.Done;
      }
      restoreAttempted := true;
      if env.unresolvedCalls || exists id | id in roots :: roots[id].state.Unknown? && id !in acknowledged {
        flow := BlockContext(env.faults);
        return if flow.Broken? then Control.Broken else Control.Done;
      }
      flow := if Control.Enabling in env.faults then Control.Broken else Control.Done;
    }

    method MaterialRequest(now: int, env: Env) returns (flow: Flow)
      modifies this`pending
      ensures Control.After(Now(), flow) == Control.Debounce(old(Now()), now, env)
    {
      if Control.ReadingBoard in env.faults {
        return Control.Broken;
      }
      if env.material.None? || Control.Board(env.material.value) in roots {
        pending := None;
        return Control.Done;
      }
      if pending.Some? && pending.value.material == env.material.value {
        return if now - pending.value.since >= Control.DEBOUNCE_SECONDS then Control.Next else Control.Done;
      }
      pending := Some(Control.Pending(env.material.value, now));
      flow := Control.Done;
    }

    /** The durable reservation of a root, and its dispatch mark. */
    method ReserveAndMark(id: Id, calls: nat, now: int, faults: set<Fault>) returns (flow: Flow)
      modifies this`roots
      ensures Control.After(Now(), flow) == Control.ReserveAndMark(old(Now()), id, calls, now, faults)
    {
      var remaining := RemainingCalls();
      if Control.Reserving in faults || !Control.Dispatchable(saved, now)
        || now + saved.config.value.timeout > Control.I64_MAX {
        return Control.Broken;
      }
      if calls > remaining || id in roots {
        return Control.Broken;
      }
      ghost var before := Now();
      var deadline := Control.Min(now + saved.config.value.timeout, saved.config.value.expiresAt);
      roots := roots[id := Control.Root(calls, deadline, Control.RootState.Reserved, saved.revision, None)];
      assert Control.Reserve(before, id, calls, now) == Some(roots[id]);
      if Control.Fault.Dispatching in faults || now >= deadline {
        return Control.Broken;
      }
      ghost var reserved := roots;
      roots := roots[id := roots[id].(state := Control.RootState.Dispatched)];
      assert roots == before.roots[id := reserved[id].(state := Control.RootState.Dispatched)];
      flow := Control.Next;
    }

    /** Dispatch intent is on record before the session is asked; an error from
        the session may hide a delivery, and is settled as unknown. */
    method DispatchBackground(now: int, env: Env) returns (flow: Flow)
      modifies this
      ensures Control.After(Now(), flow) == Control.DispatchBackground(old(Now()), now, env)
    {
      if pending.None? || saved.config.None? {
        return Control.Done;
      }
      var remaining := RemainingCalls();
      if remaining < Control.JOB_CALLS {
        return Control.Done;
      }
      if blocked || paused {
        return Control.Broken;
      }
      var id, since := Control.Board(pending.value.material), pending.value.since;
      flow := ReserveAndMark(id, Control.JOB_CALLS, now, env.faults);
      if flow.Next? {
        MarkedIsThere(old(Now()), id, now, env.faults);
        flow := Send(id, since, now, env);
      }
    }

    method Send(id: Id, since: int, now: int, env: Env) returns (flow: Flow)
      requires id in roots && saved.config.Some?
      modifies this
      ensures Control.After(Now(), flow) == Control.Send(old(Now()), id, since, now, env)
    {
      begun := begun + [Control.Begin(id, now, since, paused, blocked, active, Some(roots[id]), saved, shares)];
      pending := None;
      if Control.Beginning in env.faults {
        flow := SettleUnsent(id, env);
        return;
      }
      active := Some(Control.Active(id, saved.config.value.scope, roots[id].deadline));
      flow := Control.Done;
    }

    method SettleUnsent(id: Id, env: Env) returns (flow: Flow)
      modifies this
      ensures Control.After(Now(), flow) == Control.Unsent(old(Now()), id, env)
    {
      if Control.SettlingUnsent in env.faults {
        return Control.Broken;
      }
      var ok := FinishMeasured(id, Control.RootState.Unknown, None);
      if !ok {
        return Control.Broken;
      }
      flow := BlockContext(env.faults);
      flow := if flow.Broken? || Control.Cancelling in env.faults then Control.Broken else Control.Done;
    }

    method Tick(now: int, env: Env) returns (flow: Flow)
      modifies this
      ensures Control.After(Now(), flow) == Control.Tick(old(Now()), now, env)
    {
      flow := ApplyControlInterrupts(now, env);
      if flow != Control.Next || env.polledRecently || (lastTick.Some? && now <= lastTick.value) {
        return if flow.Next? then Control.Done else flow;
      }
      lastTick := Some(now);
      flow := SettleActive(now, env);
      if flow != Control.Next {
        return;
      }
      flow := EligibleBackground(now, env);
      if flow != Control.Next {
        return;
      }
      flow := BackgroundSessionReady(env);
      if flow != Control.Next {
        return;
      }
      flow := MaterialRequest(now, env);
      if flow != Control.Next {
        return;
      }
      flow := DispatchBackground(now, env);
    }

    /** Saves a changed approval; queued roots are cancelled with it. */
    method Save(next: Control.Saved)
      modifies this`saved, this`roots
      ensures Now() == Control.Save(old(Now()), next)
    {
      saved := next;
      roots := map id | id in roots ::
          if roots[id].state.Reserved? then roots[id].(state := Control.RootState.Cancelled) else roots[id];
    }

    method Disable(env: Env) returns (flow: Flow)
      modifies this
      ensures Control.After(Now(), flow) == Control.Disable(old(Now()), env)
    {
      if Control.Saving in env.faults {
        return Control.Broken;
      }
      Save(saved.(enabled := false, paused := true));
      cancelPending, pending := true, None;
      flow := if Control.Allowing in env.faults then Control.Broken else Control.Done;
    }

    method Pause(env: Env) returns (flow: Flow)
      modifies this
      ensures Control.After(Now(), flow) == Control.Pause(old(Now()), env)
    {
      if Control.Holding in env.faults {
        return Control.Broken;
      }
      paused := true;
      if Control.Saving in env.faults {
        return Control.Broken;
      }
      Save(saved.(paused := true));
      cancelPending, pending := true, None;
      flow := if Control.Allowing in env.faults then Control.Broken else Control.Done;
    }

    method Resume(now: int, env: Env) returns (flow: Flow)
      modifies this`saved, this`paused
      ensures Control.After(Now(), flow) == Control.Resume(old(Now()), now, env)
    {
      if blocked || Control.ReadingStatus in env.faults {
        return Control.Broken;
      }
      if saved.enabled {
        if saved.config.None? || now < 0 || saved.config.value.expiresAt <= now || Control.Saving in env.faults {
          return Control.Broken;
        }
        saved := saved.(paused := false);
      }
      if Control.Unholding in env.faults {
        return Control.Broken;
      }
      paused := false;
      flow := if saved.enabled && Control.Allowing in env.faults then Control.Broken else Control.Done;
    }

    method RevokeBoard(name: Name, env: Env) returns (flow: Flow)
      modifies this
      ensures Control.After(Now(), flow) == Control.RevokeBoard(old(Now()), name, env)
    {
      if Control.Withdrawing in env.faults {
        return Control.Broken;
      }
      if name in shares {
        shares := shares - {name};
        blocked := true;
        revocations := if name in revocations then revocations else revocations[name := None];
      }
      cancelPending, pending := true, None;
      flow := Disable(env);
      if flow.Broken? {
        return;
      }
      flow := FinishRevocations(env);
      flow := if flow.Broken? then Control.Broken else Control.Done;
    }

    method Recovered(env: Env) returns (flow: Flow)
      modifies this
      ensures Control.After(Now(), flow) == Control.Recover(old(Now()), env)
    {
      flow := FinishRevocations(env);
      if flow == Control.Next {
        flow := Reopen(env);
      }
    }

    method Reopen(env: Env) returns (flow: Flow)
      modifies this
      ensures Control.After(Now(), flow) == Control.Reopen(old(Now()), env)
    {
      if Control.Clearing in env.faults || Control.Acknowledging in env.faults {
        return Control.Broken;
      }
      acknowledged := acknowledged + Control.UnknownRoots(roots);
      if Control.Unblocking in env.faults {
        return Control.Broken;
      }
      blocked, restoreAttempted := false, false;
      flow := Control.Done;
    }
  }

  lemma MarkedIsThere(w: Control.World, id: Id, now: int, faults: set<Fault>)
    requires Control.ReserveAndMark(w, id, Control.JOB_CALLS, now, faults).flow.Next?
    ensures id in Control.ReserveAndMark(w, id, Control.JOB_CALLS, now, faults).w.roots
  {
  }
}
