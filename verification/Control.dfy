/** The background controller: its tables and memory, and what each of its
    operations makes of them. Every durable access can fail, which ends the
    operation with what was written so far; a crash is such a failure followed
    by a restart. */
module Control {
  import opened Wrappers
  import Sets

  /** Board scopes, ordered as their texts. */
  type Name = int

  /** The deterministic ids of the two kinds of background root. */
  datatype Id = Board(material: string) | Upkeep(name: string)

  const JOB_CALLS: nat := 4
  const DEBOUNCE_SECONDS: int := 10
  const I64_MAX: int := 0x7FFF_FFFF_FFFF_FFFF

  datatype RootState = Reserved | Dispatched | Completed | Failed | Unknown | Abandoned | Cancelled

  /** What a root can be settled with. */
  type Outcome = s: RootState | s.Completed? || s.Failed? || s.Unknown? witness RootState.Completed

  datatype Root = Root(calls: nat, deadline: int, state: RootState, revision: nat, confirmed: Option<nat>)

  datatype Config = Config(scope: Name, maxCalls: nat, expiresAt: int, timeout: nat)

  datatype Saved = Saved(config: Option<Config>, enabled: bool, paused: bool, revision: nat)

  datatype Active = Active(id: Id, scope: Name, deadline: int)

  datatype Pending = Pending(material: string, since: int)

  /** What stood when a job was handed to the session. */
  datatype Begin = Begin(id: Id, at: int, since: int, paused: bool, blocked: bool, active: Option<Active>,
      root: Option<Root>, saved: Saved, shares: set<Name>)

  datatype World = World(
    // the owner's tables
    paused: bool,
    blocked: bool,
    shares: set<Name>,
    revocations: map<Name, Option<nat>>,
    upkeep: Option<Name>,
    acknowledged: set<Id>,
    roots: map<Id, Root>,
    saved: Saved,
    // the controller's memory
    active: Option<Active>,
    pending: Option<Pending>,
    lastTick: Option<int>,
    cancelPending: bool,
    restoreAttempted: bool,
    // history: jobs handed to the session, and the largest allowance approved
    begun: seq<Begin>,
    granted: nat)

  /** The accesses that can fail. */
  datatype Fault =
    | ReadingFlags | ReadingReceipt | ReadingStatus | ReadingBoard
    | Cancelling | Settling | Blocking | Allowing | Confirming | Observing | Enabling
    | Reserving | Dispatching | Beginning | SettlingUnsent
    | Holding | Unholding | Saving | Withdrawing | Clearing | Acknowledging | Unblocking | Charging

  datatype Permission = Absent | Matching | Other

  /** What an operation finds outside the controller. */
  datatype Env = Env(
    faults: set<Fault>,
    // revocations: scopes whose memory can be forgotten, and cleaned up after
    forgets: set<Name>, cleans: set<Name>, epoch: nat,
    // the clock's monotonic side
    polledRecently: bool, overdue: bool,
    // the call policy: the calls of the active job's completed top-level receipt
    receipt: Option<nat>, unresolvedCalls: bool,
    // the session
    nativeBusy: bool, native: bool, terminal: bool, busy: bool, permission: Permission, ready: bool,
    // the board's consequential rows
    material: Option<string>)

  datatype Flow = Next | Done | Broken

  /** The state reached, and whether the operation goes on, is done, or failed. */
  datatype After = After(w: World, flow: Flow)

  // Blocking, settling and abandoning.

  function BlockContext(w: World, faults: set<Fault>): After {
    var w1 := w.(pending := None);
    if Blocking in faults then After(w1, Broken)
    else After(w1.(blocked := true), if Allowing in faults then Broken else Next)
  }

  /** A root takes an outcome if it is dispatched, or already has that one; a
      measurement is at most what was reserved and is never rewritten. */
  function Finish(roots: map<Id, Root>, id: Id, outcome: Outcome, measured: Option<nat>): Option<map<Id, Root>> {
    if id !in roots then None
    else
      var root := roots[id];
      var m := if outcome.Completed? then measured else None;
      if m.Some? && (m.value > root.calls || (root.confirmed.Some? && root.confirmed != m)) then None
      else if !root.state.Dispatched? && root.state != outcome then None
      else Some(roots[id := root.(state := outcome, confirmed := if root.confirmed.Some? then root.confirmed else m)])
  }

  function Abandon(w: World, faults: set<Fault>): After {
    if w.active.None? then After(w, Next)
    else
      var w1 := w.(active := None);
      var finished := Finish(w.roots, w.active.value.id, Unknown, None);
      if Settling in faults || finished.None? then After(w1, Broken)
      else BlockContext(w1.(roots := finished.value), faults)
  }

  // Revocations.

  function FinishOne(w: World, name: Name, env: Env): After
    requires name in w.revocations
  {
    if w.revocations[name].None? && name !in env.forgets then After(w, Broken)
    else
      var epoch := if w.revocations[name].Some? then w.revocations[name] else Some(env.epoch);
      if name !in env.cleans then After(w.(revocations := w.revocations[name := epoch]), Broken)
      else After(w.(revocations := w.revocations - {name}), Next)
  }

  function FinishAll(w: World, names: seq<Name>, env: Env): After
    requires forall i | 0 <= i < |names| :: names[i] in w.revocations
    requires forall i, j | 0 <= i < j < |names| :: names[i] != names[j]
    decreases |names|
  {
    if names == [] then After(w, Next)
    else
      var first := FinishOne(w, names[0], env);
      if first.flow != Next then first else FinishAll(first.w, names[1..], env)
  }

  /** All pending revocations, in scope order, up to the first that fails. */
  function FinishRevocations(w: World, env: Env): After {
    var names := Sets.Ascending(w.revocations.Keys);
    Sets.AscendingLists(w.revocations.Keys);
    assert forall i | 0 <= i < |names| :: names[i] in names;
    FinishAll(w, names, env)
  }

  // One tick.

  function Interrupt(w: World, env: Env): After {
    if !w.cancelPending then After(w, Next)
    else if Cancelling in env.faults then After(w, Broken)
    else Abandon(w.(cancelPending := false), env.faults)
  }

  predicate Overdue(w: World, now: int, env: Env) {
    w.active.Some? && (env.overdue || (w.lastTick.Some? && now < w.lastTick.value))
  }

  /** A clock that stands still or goes back cannot extend a job. */
  function AbandonOverdue(w: World, now: int, env: Env): After {
    if !Overdue(w, now, env) then After(w, Next)
    else if Cancelling in env.faults then After(w, Broken)
    else Abandon(w, env.faults)
  }

  function ApplyInterrupts(w: World, now: int, env: Env): After {
    var a := Interrupt(w, env);
    if a.flow != Next then a
    else if ReadingFlags in env.faults then After(a.w, Broken)
    else
      var b := if a.w.blocked then FinishRevocations(a.w, env) else a;
      if b.flow != Next then b else AbandonOverdue(b.w, now, env)
  }

  function TickDue(w: World, now: int, env: Env): After {
    if env.polledRecently || (w.lastTick.Some? && now <= w.lastTick.value) then After(w, Done)
    else After(w.(lastTick := Some(now)), Next)
  }

  function Measured(env: Env): Option<nat> {
    if env.receipt.Some? && 1 <= env.receipt.value <= JOB_CALLS then env.receipt else None
  }

  /** A measured completion settles the active job. */
  function Confirm(w: World, active: Active, env: Env): After {
    var finished := Finish(w.roots, active.id, Completed, Measured(env));
    if Confirming in env.faults || finished.None? then After(w, Broken)
    else After(w.(roots := finished.value, active := None), Next)
  }

  function SettleActive(w: World, now: int, env: Env): After {
    if w.active.None? then After(w, Next)
    else if ReadingReceipt in env.faults then After(w, Broken)
    else if Measured(env).Some? then Confirm(w, w.active.value, env)
    else if now >= w.active.value.deadline then
      if Cancelling in env.faults then After(w, Broken) else Abandon(w, env.faults)
    else if env.terminal then Abandon(w, env.faults)
    else After(w, Next)
  }

  // The allowance.

  function Charge(root: Root): nat { if root.confirmed.Some? then root.confirmed.value else root.calls }

  ghost function Spent(roots: map<Id, Root>): nat
    decreases |roots|
  {
    if roots == map[] then 0
    else
      var id :| id in roots;
      Charge(roots[id]) + Spent(roots - {id})
  }

  function Minus(a: nat, b: nat): nat { if a < b then 0 else a - b }

  ghost function Remaining(w: World): nat {
    if w.saved.config.None? then 0 else Minus(w.saved.config.value.maxCalls, Spent(w.roots))
  }

  datatype Status = Off | Expired | Paused | Exhausted | Enabled

  function StatusOf(saved: Saved, remaining: nat, now: int): Status {
    if !saved.enabled then Off
    else if saved.config.None? || now < 0 || saved.config.value.expiresAt <= now then Expired
    else if saved.paused then Paused
    else if remaining == 0 then Exhausted
    else Enabled
  }

  predicate Unresolved(w: World, env: Env) {
    env.unresolvedCalls || exists id | id in w.roots :: w.roots[id].state.Unknown? && id !in w.acknowledged
  }

  /** The configuration that memory upkeep may use now. */
  function UpkeepPermission(w: World, remaining: nat, now: int, active: bool, env: Env): Option<Config> {
    var status := StatusOf(w.saved, remaining, now);
    if w.paused || w.blocked || env.nativeBusy || (!active && Unresolved(w, env)) then None
    else if status != Enabled && !(active && status == Exhausted) then None
    else if w.saved.config.None? || w.upkeep != Some(w.saved.config.value.scope) then None
    else w.saved.config
  }

  function CheckEligible(w: World, remaining: nat, now: int, env: Env): After {
    var status := StatusOf(w.saved, remaining, now);
    if ReadingStatus in env.faults then After(w, Broken)
    else if env.nativeBusy || UpkeepPermission(w, remaining, now, true, env).Some? then After(w, Done)
    else if w.paused || w.blocked || !(status == Enabled || (status == Exhausted && w.active.Some?))
      || w.saved.config.None? then
      After(w.(pending := None), if Allowing in env.faults then Broken else Done)
    else if w.saved.config.value.scope !in w.shares then After(w, if Allowing in env.faults then Broken else Done)
    else After(w, if Allowing in env.faults || Observing in env.faults then Broken else Next)
  }

  function RestoreSession(w: World, env: Env): After {
    if env.native || w.restoreAttempted then After(w, Done)
    else
      var w1 := w.(restoreAttempted := true);
      if Unresolved(w, env) then
        var blocked := BlockContext(w1, env.faults);
        After(blocked.w, if blocked.flow == Broken then Broken else Done)
      else After(w1, if Enabling in env.faults then Broken else Done)
  }

  function SessionReady(w: World, env: Env): After {
    if w.active.Some? || env.busy then After(w, Done)
    else if env.permission.Absent? then RestoreSession(w, env)
    else if env.permission.Other? || !env.ready then After(w, Done)
    else After(w, Next)
  }

  /** The same material must be seen again ten seconds after it was first. */
  function Debounce(w: World, now: int, env: Env): After {
    if ReadingBoard in env.faults then After(w, Broken)
    else if env.material.None? || Board(env.material.value) in w.roots then After(w.(pending := None), Done)
    else if w.pending.Some? && w.pending.value.material == env.material.value then
      After(w, if now - w.pending.value.since >= DEBOUNCE_SECONDS then Next else Done)
    else After(w.(pending := Some(Pending(env.material.value, now))), Done)
  }

  // Reserving and dispatching a root.

  predicate Dispatchable(saved: Saved, now: int) {
    saved.config.Some? && saved.enabled && !saved.paused && 0 <= now < saved.config.value.expiresAt
  }

  function Min(a: int, b: int): int { if a <= b then a else b }

  ghost function Reserve(w: World, id: Id, calls: nat, now: int): Option<Root> {
    if !Dispatchable(w.saved, now) || now + w.saved.config.value.timeout > I64_MAX then None
    else if calls > Remaining(w) || id in w.roots then None
    else
      var deadline := Min(now + w.saved.config.value.timeout, w.saved.config.value.expiresAt);
      Some(Root(calls, deadline, Reserved, w.saved.revision, None))
  }

  predicate MayDispatch(w: World, id: Id, now: int) {
    && Dispatchable(w.saved, now)
    && id in w.roots && w.roots[id].state.Reserved? && w.roots[id].revision == w.saved.revision
    && now < w.roots[id].deadline
  }

  /** The durable part of a dispatch: a reservation, then its dispatch mark. */
  ghost function ReserveAndMark(w: World, id: Id, calls: nat, now: int, faults: set<Fault>): After {
    var root := Reserve(w, id, calls, now);
    if Reserving in faults || root.None? then After(w, Broken)
    else
      var w1 := w.(roots := w.roots[id := root.value]);
      if Dispatching in faults || !MayDispatch(w1, id, now) then After(w1, Broken)
      else After(w.(roots := w.roots[id := root.value.(state := Dispatched)]), Next)
  }

  /** The session gave an error: the call may have left, and is uncertain. */
  function Unsent(w: World, id: Id, env: Env): After {
    var finished := Finish(w.roots, id, Unknown, None);
    if SettlingUnsent in env.faults || finished.None? then After(w, Broken)
    else
      var blocked := BlockContext(w.(roots := finished.value), env.faults);
      After(blocked.w, if blocked.flow == Broken || Cancelling in env.faults then Broken else Done)
  }

  /** Hands a dispatched root to the session. */
  function Send(w: World, id: Id, since: int, now: int, env: Env): After
    requires id in w.roots && w.saved.config.Some?
  {
    var begin := Begin(id, now, since, w.paused, w.blocked, w.active, Some(w.roots[id]), w.saved, w.shares);
    var w1 := w.(pending := None, begun := w.begun + [begin]);
    if Beginning in env.faults then Unsent(w1, id, env)
    else After(w1.(active := Some(Active(id, w.saved.config.value.scope, w.roots[id].deadline))), Done)
  }

  ghost function DispatchBackground(w: World, now: int, env: Env): After {
    if w.pending.None? || w.saved.config.None? then After(w, Done)
    else if Remaining(w) < JOB_CALLS then After(w, Done)
    else if w.blocked || w.paused then After(w, Broken)
    else
      var id := Board(w.pending.value.material);
      var marked := ReserveAndMark(w, id, JOB_CALLS, now, env.faults);
      if marked.flow != Next then marked else Send(marked.w, id, w.pending.value.since, now, env)
  }

  ghost function Idle(w: World, now: int, env: Env): After {
    var ready := SessionReady(w, env);
    if ready.flow != Next then ready
    else
      var seen := Debounce(ready.w, now, env);
      if seen.flow != Next then seen else DispatchBackground(seen.w, now, env)
  }

  ghost function DueTick(w: World, now: int, env: Env): After {
    var settled := SettleActive(w, now, env);
    if settled.flow != Next then settled
    else
      var checked := CheckEligible(settled.w, Remaining(settled.w), now, env);
      if checked.flow != Next then checked else Idle(checked.w, now, env)
  }

  ghost function AfterInterrupts(a: After, now: int, env: Env): After {
    if a.flow != Next then a
    else
      var due := TickDue(a.w, now, env);
      if due.flow != Next then due else DueTick(due.w, now, env)
  }

  ghost function Tick(w: World, now: int, env: Env): After { AfterInterrupts(ApplyInterrupts(w, now, env), now, env) }

  // The owner's commands.

  /** Roots reserved but not dispatched are cancelled with every change that
      takes permission away. */
  function CancelQueued(roots: map<Id, Root>): map<Id, Root> {
    map id | id in roots :: if roots[id].state.Reserved? then roots[id].(state := Cancelled) else roots[id]
  }

  function StopWork(w: World, faults: set<Fault>): After {
    After(w.(cancelPending := true, pending := None), if Allowing in faults then Broken else Done)
  }

  function Save(w: World, saved: Saved): World { w.(saved := saved, roots := CancelQueued(w.roots)) }

  function Pause(w: World, env: Env): After {
    if Holding in env.faults then After(w, Broken)
    else
      var w1 := w.(paused := true);
      if Saving in env.faults then After(w1, Broken) else StopWork(Save(w1, w1.saved.(paused := true)), env.faults)
  }

  function Resume(w: World, now: int, env: Env): After {
    if w.blocked || ReadingStatus in env.faults then After(w, Broken)
    else if w.saved.enabled
      && (w.saved.config.None? || now < 0 || w.saved.config.value.expiresAt <= now || Saving in env.faults) then
      After(w, Broken)
    else
      var w1 := if w.saved.enabled then w.(saved := w.saved.(paused := false)) else w;
      if Unholding in env.faults then After(w1, Broken)
      else After(w1.(paused := false), if w.saved.enabled && Allowing in env.faults then Broken else Done)
  }

  function Disable(w: World, env: Env): After {
    if Saving in env.faults then After(w, Broken)
    else StopWork(Save(w, w.saved.(enabled := false, paused := true)), env.faults)
  }

  /** A share goes as its revocation is recorded and context is blocked. */
  function Withdrawn(w: World, name: Name): World {
    if name !in w.shares then w
    else w.(shares := w.shares - {name}, blocked := true,
            revocations := if name in w.revocations then w.revocations else w.revocations[name := None])
  }

  function RevokeBoard(w: World, name: Name, env: Env): After {
    if Withdrawing in env.faults then After(w, Broken)
    else
      var disabled := Disable(Withdrawn(w, name).(cancelPending := true, pending := None), env);
      if disabled.flow == Broken then disabled
      else
        var finished := FinishRevocations(disabled.w, env);
        After(finished.w, if finished.flow == Broken then Broken else Done)
  }

  function UnknownRoots(roots: map<Id, Root>): set<Id> { set id | id in roots && roots[id].state.Unknown? }

  /** The uncertain roots are acknowledged, and only then is context open. */
  function Reopen(w: World, env: Env): After {
    if Clearing in env.faults || Acknowledging in env.faults then After(w, Broken)
    else
      var w1 := w.(acknowledged := w.acknowledged + UnknownRoots(w.roots));
      if Unblocking in env.faults then After(w1, Broken)
      else After(w1.(blocked := false, restoreAttempted := false), Done)
  }

  /** Explicit recovery finishes every revocation first. */
  function Recover(w: World, env: Env): After {
    var finished := FinishRevocations(w, env);
    if finished.flow != Next then finished else Reopen(finished.w, env)
  }

  function Granted(w: World, config: Config): World {
    Save(w.(granted := if w.granted < config.maxCalls then config.maxCalls else w.granted),
         Saved(Some(config), true, false, w.saved.revision + 1))
  }

  /** Approval of background work on a shared board, or of memory upkeep. */
  function Approve(w: World, upkeep: bool, config: Config, foregroundCalls: nat, now: int, env: Env): After {
    if w.blocked || w.paused || ReadingStatus in env.faults || (!upkeep && config.scope !in w.shares)
      then After(w, Broken)
    else
      var w1 := if upkeep then w else w.(upkeep := None);
      if Saving in env.faults || !(0 < config.maxCalls <= foregroundCalls) || config.expiresAt <= now || now < 0
        then After(w1, Broken)
      else
        var w2 := Granted(w1, config);
        if upkeep && Charging in env.faults then After(w2, Broken)
        else
          var w3 := if upkeep then w2.(upkeep := Some(config.scope)) else w2;
          if Allowing in env.faults then After(w3, Broken)
          else After(w3.(pending := None, restoreAttempted := if upkeep then w3.restoreAttempted else false), Done)
  }

  ghost function ReserveUpkeep(w: World, name: string, expected: Config, now: int, env: Env): After {
    if UpkeepPermission(w, Remaining(w), now, false, env) != Some(expected) then After(w, Broken)
    else
      var marked := ReserveAndMark(w, Upkeep(name), 1, now, env.faults);
      if marked.flow == Broken then marked
      else if Charging !in env.faults then After(marked.w, Done)
      else
        var finished := Finish(marked.w.roots, Upkeep(name), Failed, None);
        After(if Settling in env.faults || finished.None? then marked.w else marked.w.(roots := finished.value), Broken)
  }

  /** A receipt settles a one-call root that a restart had made unknown. */
  function Reconciled(roots: map<Id, Root>, id: Id, confirmed: nat): map<Id, Root> {
    if id in roots && roots[id].state.Unknown? && roots[id].calls == 1
    then roots[id := roots[id].(state := Completed, confirmed := Some(confirmed))]
    else roots
  }

  /** `delivered`: the policy has the root's completed one-call receipt. */
  function FinishUpkeep(w: World, name: string, outcome: Outcome, delivered: bool, env: Env): After {
    if Charging in env.faults then After(w, Broken)
    else
      var w1 := if outcome.Completed? && delivered then w.(roots := Reconciled(w.roots, Upkeep(name), 1)) else w;
      var finished := Finish(w1.roots, Upkeep(name), outcome, Some(1));
      if Settling in env.faults || finished.None? then After(w1, Broken) else After(w1.(roots := finished.value), Done)
  }

  /** A root whose call provably never left is completed with no calls. */
  function ReleaseUpkeep(w: World, name: string, env: Env): After {
    var id := Upkeep(name);
    if Charging in env.faults then After(w, Broken)
    else
      var w1 := if id in w.roots && w.roots[id].confirmed.None? then w.(roots := Reconciled(w.roots, id, 0)) else w;
      var finished := Finish(w1.roots, id, Completed, Some(0));
      if Settling in env.faults || finished.None? then After(w1, Broken) else After(w1.(roots := finished.value), Done)
  }

  // Around the controller.

  /** A new process: queued roots are abandoned, dispatched ones unknown, and a
      revocation left pending blocks context again. */
  function Restarted(w: World): World {
    var roots := map id | id in w.roots ::
                   if w.roots[id].state.Reserved? then w.roots[id].(state := Abandoned)
                   else if w.roots[id].state.Dispatched? then w.roots[id].(state := Unknown)
                   else w.roots[id];
    w.(roots := roots, blocked := w.blocked || w.revocations != map[],
       active := None, pending := None, lastTick := None, cancelPending := false, restoreAttempted := false)
  }

  /** Full forgetting turns every share into a revocation and drops the saved
      approval, keeping charged roots and acknowledgements. */
  function Forgotten(w: World): World {
    w.(revocations := w.revocations + (map n | n in w.shares && n !in w.revocations :: None),
       shares := {}, blocked := true, saved := Saved(None, false, true, 0))
  }

  datatype Event =
    | Ticking(now: int, env: Env)
    | Pausing(env: Env)
    | Resuming(now: int, env: Env)
    | Disabling(env: Env)
    | Sharing(name: Name)
    | Revoking(name: Name, env: Env)
    | Recovering(env: Env)
    | Approving(upkeep: bool, config: Config, foregroundCalls: nat, now: int, env: Env)
    | ReservingUpkeep(upkeepName: string, expected: Config, now: int, env: Env)
    | FinishingUpkeep(upkeepName: string, outcome: Outcome, delivered: bool, env: Env)
    | ReleasingUpkeep(upkeepName: string, env: Env)
    | Restarting
    | Forgetting

  ghost function Step(w: World, e: Event): World {
    match e
    case Ticking(now, env) => Tick(w, now, env).w
    case Pausing(env) => Pause(w, env).w
    case Resuming(now, env) => Resume(w, now, env).w
    case Disabling(env) => Disable(w, env).w
    case Sharing(name) => w.(shares := w.shares + {name})
    case Revoking(name, env) => RevokeBoard(w, name, env).w
    case Recovering(env) => Recover(w, env).w
    case Approving(upkeep, config, foregroundCalls, now, env) => Approve(w, upkeep, config, foregroundCalls, now, env).w
    case ReservingUpkeep(name, expected, now, env) => ReserveUpkeep(w, name, expected, now, env).w
    case FinishingUpkeep(name, outcome, delivered, env) => FinishUpkeep(w, name, outcome, delivered, env).w
    case ReleasingUpkeep(name, env) => ReleaseUpkeep(w, name, env).w
    case Restarting => Restarted(w)
    case Forgetting => Forgotten(w)
  }

  ghost function Run(w: World, events: seq<Event>): World
    decreases |events|
  {
    if events == [] then w else Run(Step(w, events[0]), events[1..])
  }

  /** A fresh root: nothing approved, shared or charged. */
  const START :=
    World(false, false, {}, map[], None, {}, map[], Saved(None, false, true, 0), None, None, None, false, false, [], 0)
}
