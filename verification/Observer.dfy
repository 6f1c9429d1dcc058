/** The local observation loop: what it publishes of the store it watches, and
    which pending launches it shows as live. */
module Observer {
  import opened Wrappers

  type Token = string

  /** Everything stored of a pending launch. */
  type Launch = string

  const RECONCILE_INTERVAL: int := 20

  /** A cache read. Other connections make `commits` commits before it; it may
      fail before the pending rows are read, or after. */
  datatype Read = Read(commits: nat, pending: map<Token, Launch>, outcome: Outcome)

  datatype Outcome = Unread | Half | Whole

  /** A look at the store's commit cursor. */
  datatype Check = Check(commits: nat, ok: bool)

  /** What a full reconciliation saw: the pending rows, and those whose process
      it proved. */
  datatype Inventory = Inventory(pending: map<Token, Launch>, live: set<Token>)

  datatype Entry =
    | Reconciled(inventory: Inventory)
    | Doubted
    | CacheRead(pending: map<Token, Launch>)
    | Published(live: map<Token, Launch>)

  /** `seen` counts the store's commits up to the last access; `watcher` is the
      held cursor's baseline; `published` is the commit count when the snapshot
      last published was read. `log` and `reloaded` are history. */
  datatype World = World(
    seen: nat, watcher: Option<nat>, evidence: map<Token, Launch>, published: nat, observing: bool, nextReconcile: int,
    reloaded: bool, log: seq<Entry>)

  // Reading and publishing.

  /** What is common to two tables of launches, row for row. */
  function Agreeing(a: map<Token, Launch>, b: map<Token, Launch>): map<Token, Launch> {
    map t | t in a && t in b && b[t] == a[t] :: a[t]
  }

  function BoardItems(w: World, r: Read): World {
    var w1 := w.(seen := w.seen + r.commits);
    if r.outcome.Unread? then w1
    else w1.(evidence := Agreeing(w.evidence, r.pending), log := w.log + [CacheRead(r.pending)])
  }

  /** The snapshot just read: its live rows are those the evidence still has. */
  function Publish(w: World): World {
    w.(published := w.seen, reloaded := true, log := w.log + [Published(w.evidence)])
  }

  function PublishCached(w: World, r: Read): World {
    var w1 := BoardItems(w, r);
    if r.outcome.Whole? then Publish(w1) else w1
  }

  /** Evidence is dropped, and the board shown without it, if there was any. */
  function Invalidate(w: World, r: Read): World {
    var w1 := w.(log := w.log + [Doubted]);
    if w.evidence == map[] then w1 else PublishCached(w1.(evidence := map[]), r)
  }

  // The watcher.

  /** Whether a reload is due: a new watcher always asks for one. */
  function StoreChanged(w: World, c: Check): (World, bool) {
    var now := w.seen + c.commits;
    var w1 := w.(seen := now);
    if w.watcher.None? then (if c.ok then w1.(watcher := Some(now)) else w1, c.ok)
    else if c.ok then (w1.(watcher := Some(now)), w.watcher.value != now)
    else (w1.(watcher := None), false)
  }

  function Poll(w: World, c: Check, r: Read): World {
    var (w1, changed) := StoreChanged(w, c);
    if !changed then w1
    else
      var w2 := BoardItems(w1, r);
      if r.outcome.Whole? then Publish(w2) else w2.(watcher := None)
  }

  // One turn of the loop.

  datatype Wake = Asked | Timeout | Gone

  datatype Env = Env(
    enabled: bool, owner: bool, doubt: Read, handoff: Read, now: int, later: int, stopped: bool,
    inventory: Option<Inventory>, board: Read, check: Check, again: Read, wake: Wake, wakeCheck: Check, wakeRead: Read)

  function Proven(i: Inventory): map<Token, Launch> { map t | t in i.pending && t in i.live :: i.pending[t] }

  function Reconcile(w: World, env: Env): World {
    match env.inventory
    case None => Invalidate(w, env.board)
    case Some(i) =>
      var w1 := BoardItems(w.(evidence := Proven(i), log := w.log + [Reconciled(i)]), env.board);
      if env.board.outcome.Whole? then Poll(Publish(w1), env.check, env.again) else w1
  }

  function Handoff(w: World, env: Env): World {
    var w1 := if env.owner then w else Invalidate(w, env.doubt);
    if w1.observing then w1
    else PublishCached(w1, env.handoff).(nextReconcile := env.now + RECONCILE_INTERVAL, observing := true)
  }

  function Due(w: World, env: Env): bool { env.owner && env.now >= w.nextReconcile }

  function Sweep(w: World, env: Env): World {
    if Due(w, env) then Reconcile(w, env).(nextReconcile := env.later + RECONCILE_INTERVAL) else w
  }

  function WakeUp(w: World, env: Env): World {
    match env.wake
    case Asked => w.(nextReconcile := env.later)
    case Timeout => Poll(w, env.wakeCheck, env.wakeRead)
    case Gone => w
  }

  function Turn(w: World, env: Env): World {
    if !env.enabled then Invalidate(w, env.doubt).(nextReconcile := env.now)
    else
      var w1 := Handoff(w, env);
      if Due(w1, env) && env.stopped then w1 else WakeUp(Sweep(w1, env), env)
  }

  function Run(w: World, turns: seq<Env>): World
    decreases |turns|
  {
    if turns == [] then w else Run(Turn(w, turns[0]), turns[1..])
  }

  /** The first frame is a cache read at commit `first`; the watcher is made
      `gap` commits later, if it can be. */
  function Start(first: nat, gap: nat, watching: bool, observing: bool, now: int): World {
    World(first + gap, if watching then Some(first + gap) else None, map[], first, observing, now, false, [])
  }

  // No commit is lost.

  /** A run from a first frame at `first` and a watcher made `gap` commits later:
      once something was reloaded the baseline is no newer than what was
      published, and until then both are where they started. */
  ghost predicate Caught(w: World, first: nat, gap: nat) {
    && w.published <= w.seen && (w.watcher.Some? ==> w.watcher.value <= w.seen)
    && (w.reloaded && w.watcher.Some? ==> w.watcher.value <= w.published)
    && (!w.reloaded && w.watcher.Some? ==> w.watcher.value == first + gap && w.published == first)
  }

  /** A poll that succeeds leaves everything committed before it published, but
      for one that finds the baseline it started from. */
  lemma PollCatchesUp(w: World, c: Check, r: Read, first: nat, gap: nat)
    requires Caught(w, first, gap)
    ensures Caught(Poll(w, c, r), first, gap)
    ensures c.ok && r.outcome.Whole? ==>
              (Poll(w, c, r).published >= w.seen + c.commits <==>
               w.reloaded || w.watcher.None? || gap == 0 || w.seen + c.commits > first + gap)
  {
  }

  /** A poll reads the board exactly when its look at the cursor works and there
      was no baseline, or something was committed since. Otherwise nothing is read
      or shown. A poll whose look or reload fails leaves no baseline. */
  lemma PollReadsExactlyWhen(w: World, c: Check, r: Read)
    ensures var w' := Poll(w, c, r);
            var loads := c.ok && (w.watcher.None? || w.watcher.value != w.seen + c.commits);
            && (!loads ==>
                  && w'.log == w.log && w'.evidence == w.evidence && w'.published == w.published
                  && w'.watcher == if c.ok then w.watcher else None)
            && (loads && r.outcome.Whole? ==>
                  && w'.published == w.seen + c.commits + r.commits && w'.reloaded
                  && w'.log == w.log + [CacheRead(r.pending), Published(w'.evidence)]
                  && w'.watcher == Some(w.seen + c.commits))
            && (loads && !r.outcome.Whole? ==> w'.published == w.published && w'.watcher == None)
  {
  }

  lemma StepsCatchUp(w: World, r: Read, first: nat, gap: nat)
    requires Caught(w, first, gap)
    ensures Caught(PublishCached(w, r), first, gap) && Caught(Invalidate(w, r), first, gap)
            && Caught(BoardItems(w, r), first, gap)
  {
  }

  lemma ReconcileCatchesUp(w: World, env: Env, first: nat, gap: nat)
    requires Caught(w, first, gap)
    ensures Caught(Reconcile(w, env), first, gap)
  {
    StepsCatchUp(w, env.board, first, gap);
    if env.inventory.Some? {
      var w0 := w.(evidence := Proven(env.inventory.value), log := w.log + [Reconciled(env.inventory.value)]);
      StepsCatchUp(w0, env.board, first, gap);
      PollCatchesUp(Publish(BoardItems(w0, env.board)), env.check, env.again, first, gap);
    }
  }

  lemma HandoffCatchesUp(w: World, env: Env, first: nat, gap: nat)
    requires Caught(w, first, gap)
    ensures Caught(Handoff(w, env), first, gap)
  {
    StepsCatchUp(w, env.doubt, first, gap);
    StepsCatchUp(if env.owner then w else Invalidate(w, env.doubt), env.handoff, first, gap);
  }

  lemma TurnCatchesUp(w: World, env: Env, first: nat, gap: nat)
    requires Caught(w, first, gap)
    ensures Caught(Turn(w, env), first, gap)
  {
    if env.enabled {
      HandoffCatchesUp(w, env, first, gap);
      var w1 := Handoff(w, env);
      ReconcileCatchesUp(w1, env, first, gap);
      assert Caught(Sweep(w1, env), first, gap);
      PollCatchesUp(Sweep(w1, env), env.wakeCheck, env.wakeRead, first, gap);
    } else {
      StepsCatchUp(w, env.doubt, first, gap);
    }
  }

  lemma {:induction false} RunCatchesUp(w: World, turns: seq<Env>, first: nat, gap: nat)
    requires Caught(w, first, gap)
    ensures Caught(Run(w, turns), first, gap)
    decreases |turns|
  {
    if turns != [] {
      TurnCatchesUp(w, turns[0], first, gap);
      RunCatchesUp(Turn(w, turns[0]), turns[1..], first, gap);
    }
  }

  /** Over any turns, with any watcher errors, load errors and interleaved
      commits, a held watcher's baseline exceeds the version last published
      exactly before the first reload, if commits came between the first frame
      and the watcher. A poll that works then publishes everything committed
      before it, exactly unless it finds that same baseline again. */
  lemma NoCommitIsLost(first: nat, gap: nat, watching: bool, observing: bool, now: int, turns: seq<Env>, c: Check,
      r: Read)
    ensures var w := Run(Start(first, gap, watching, observing, now), turns);
            && ((w.watcher.Some? ==> w.watcher.value <= w.published) <==> w.reloaded || w.watcher.None? || gap == 0)
            && (c.ok && r.outcome.Whole? ==>
                  (Poll(w, c, r).published >= w.seen + c.commits <==>
                   w.reloaded || w.watcher.None? || gap == 0 || w.seen + c.commits > first + gap))
  {
    var start := Start(first, gap, watching, observing, now);
    RunCatchesUp(start, turns, first, gap);
    PollCatchesUp(Run(start, turns), c, r, first, gap);
  }

  /** After these turns, whatever was committed before the baseline is shown. */
  predicate ShownUpToBaseline(start: World, turns: seq<Env>) {
    var w := Run(start, turns);
    w.watcher.Some? ==> w.watcher.value <= w.published
  }

  /** From start-up the baseline is safe over every run exactly if there is no
      watcher yet, or nothing was committed before it was made. */
  lemma StartIsSafeExactlyWithoutGap(first: nat, gap: nat, watching: bool, observing: bool, now: int)
    ensures (forall turns :: ShownUpToBaseline(Start(first, gap, watching, observing, now), turns)) <==>
            !watching || gap == 0
  {
    var start := Start(first, gap, watching, observing, now);
    if watching && gap > 0 {
      assert !ShownUpToBaseline(start, []);
    } else {
      // Without a watcher any starting point will do.
      forall turns
        ensures ShownUpToBaseline(start, turns)
      {
        RunCatchesUp(start, turns, first, if watching then gap else 0);
      }
    }
  }

  /** A follower's turn in which nothing is committed: it has no lease, and its
      check of the store works and finds nothing new. */
  predicate QuietFollower(env: Env) { !env.owner && env.wakeCheck == Check(0, true) }

  /** A follower whose watcher was made after the first frame shows nothing of
      the commits between, however many quiet turns it takes. */
  lemma StartMayMissCommits(first: nat, gap: nat, now: int, turns: seq<Env>)
    requires forall i | 0 <= i < |turns| :: QuietFollower(turns[i])
    ensures var w := Run(Start(first, gap, true, true, now), turns);
            w.published == first && w.seen == first + gap && w.watcher == Some(first + gap) && !w.reloaded
  {
    QuietTurnsShowNothing(Start(first, gap, true, true, now), turns);
  }

  /** Not so after an exact open, which starts paused: however long the pause,
      if the first turn that is let run can read the cache, it shows everything
      committed before, and so do all turns after it. Its read must work: the
      loop takes itself to be observing even when it fails. */
  lemma HandoffClosesTheGap(first: nat, gap: nat, watching: bool, now: int, paused: seq<Env>, env: Env, turns: seq<Env>)
    requires forall i | 0 <= i < |paused| :: !paused[i].enabled
    requires env.enabled && env.handoff.outcome.Whole?
    ensures var w := Run(Start(first, gap, watching, false, now), paused + ([env] + turns));
            w.reloaded && (w.watcher.Some? ==> w.watcher.value <= w.published)
  {
    var start := Start(first, gap, watching, false, now);
    var w := Run(start, paused);
    RunAppend(start, paused, [env] + turns);
    assert ([env] + turns)[0] == env && ([env] + turns)[1..] == turns;
    RunCatchesUp(start, paused, first, if watching then gap else 0);
    PausedTurnsWait(start, paused);
    TurnCatchesUp(w, env, first, if watching then gap else 0);
    HandoffReloads(w, env);
    // Once reloaded, the starting point no longer matters.
    var w1 := Turn(w, env);
    RunCatchesUp(w1, turns, w1.published, 0);
    RunStaysReloaded(w1, turns);
  }

  lemma {:induction false} RunAppend(w: World, a: seq<Env>, b: seq<Env>)
    ensures Run(w, a + b) == Run(Run(w, a), b)
    decreases |a|
  {
    if a == [] {
      assert a + b == b;
    } else {
      assert (a + b)[1..] == a[1..] + b;
      RunAppend(Turn(w, a[0]), a[1..], b);
    }
  }

  lemma {:induction false} PausedTurnsWait(w: World, paused: seq<Env>)
    requires !w.observing && forall i | 0 <= i < |paused| :: !paused[i].enabled
    ensures !Run(w, paused).observing
    decreases |paused|
  {
    if paused != [] {
      PausedTurnsWait(Turn(w, paused[0]), paused[1..]);
    }
  }

  lemma {:induction false} RunStaysReloaded(w: World, turns: seq<Env>)
    requires w.reloaded
    ensures Run(w, turns).reloaded
    decreases |turns|
  {
    if turns != [] {
      TurnStaysReloaded(w, turns[0]);
      RunStaysReloaded(Turn(w, turns[0]), turns[1..]);
    }
  }

  lemma TurnStaysReloaded(w: World, env: Env)
    requires w.reloaded
    ensures Turn(w, env).reloaded
  {
    if env.enabled {
      var w1 := Handoff(w, env);
      ReconcileStaysReloaded(w1, env);
      PollStaysReloaded(Sweep(w1, env), env.wakeCheck, env.wakeRead);
    }
  }

  lemma PollStaysReloaded(w: World, c: Check, r: Read)
    requires w.reloaded
    ensures Poll(w, c, r).reloaded
  {
  }

  lemma ReconcileStaysReloaded(w: World, env: Env)
    requires w.reloaded
    ensures Reconcile(w, env).reloaded
  {
  }

  lemma HandoffReloads(w: World, env: Env)
    requires env.enabled && !w.observing && env.handoff.outcome.Whole?
    ensures Turn(w, env).reloaded
  {
    var w1 := Handoff(w, env);
    assert w1.reloaded;
    ReconcileStaysReloaded(w1, env);
    PollStaysReloaded(Sweep(w1, env), env.wakeCheck, env.wakeRead);
  }

  lemma {:induction false} QuietTurnsShowNothing(w: World, turns: seq<Env>)
    requires w.observing && w.evidence == map[] && w.watcher == Some(w.seen)
    requires forall i | 0 <= i < |turns| :: QuietFollower(turns[i])
    ensures var w' := Run(w, turns);
            w'.published == w.published && w'.seen == w.seen && w'.watcher == w.watcher && w'.reloaded == w.reloaded
    decreases |turns|
  {
    if turns != [] {
      assert QuietFollower(turns[0]);
      QuietTurnsShowNothing(Turn(w, turns[0]), turns[1..]);
    }
  }

  // Liveness is neither invented nor hidden.

  /** The latest successful reconciliation saw this launch stored and its process
      alive, and since then there was no pause, lost lease or failed
      reconciliation, and every cache read had the identical row. */
  ghost predicate Justified(log: seq<Entry>, t: Token, launch: Launch) {
    exists i :: 0 <= i < |log| && ProvenAt(log, i, t, launch) && StoodSince(log, i, t, launch)
  }

  predicate ProvenAt(log: seq<Entry>, i: nat, t: Token, launch: Launch)
    requires i < |log|
  {
    && log[i].Reconciled? && t in log[i].inventory.live
    && t in log[i].inventory.pending && log[i].inventory.pending[t] == launch
  }

  predicate StoodSince(log: seq<Entry>, i: nat, t: Token, launch: Launch)
    requires i < |log|
  {
    forall k | i < k < |log| ::
      !log[k].Reconciled? && !log[k].Doubted?
        && (log[k].CacheRead? ==> t in log[k].pending && log[k].pending[t] == launch)
  }

  predicate Holds(live: map<Token, Launch>, t: Token, launch: Launch) { t in live && live[t] == launch }

  /** These are exactly the launches the log justifies. */
  ghost predicate Exact(live: map<Token, Launch>, log: seq<Entry>) {
    forall t, launch :: Holds(live, t, launch) <==> Justified(log, t, launch)
  }

  /** What was ever shown was exactly what the log before it justified. */
  ghost predicate Shown(log: seq<Entry>) {
    forall k | 0 <= k < |log| && log[k].Published? :: Exact(log[k].live, log[..k])
  }

  ghost predicate Honest(w: World) { Shown(w.log) && Exact(w.evidence, w.log) }

  lemma ShownExtends(log: seq<Entry>, e: Entry)
    requires Shown(log) && (e.Published? ==> Exact(e.live, log))
    ensures Shown(log + [e])
  {
    forall k | 0 <= k < |log + [e]| && (log + [e])[k].Published?
      ensures Exact((log + [e])[k].live, (log + [e])[..k])
    {
      assert (log + [e])[..k] == if k < |log| then log[..k] else log;
    }
  }

  lemma StandingGoesOn(log: seq<Entry>, e: Entry, t: Token, launch: Launch)
    requires Justified(log, t, launch) && !e.Reconciled? && !e.Doubted?
    requires e.CacheRead? ==> Holds(e.pending, t, launch)
    ensures Justified(log + [e], t, launch)
  {
    var i :| 0 <= i < |log| && ProvenAt(log, i, t, launch) && StoodSince(log, i, t, launch);
    assert ProvenAt(log + [e], i, t, launch) && StoodSince(log + [e], i, t, launch);
  }

  lemma StoodBefore(log: seq<Entry>, e: Entry, t: Token, launch: Launch)
    requires Justified(log + [e], t, launch) && !e.Reconciled?
    ensures Justified(log, t, launch) && !e.Doubted? && (e.CacheRead? ==> Holds(e.pending, t, launch))
  {
    var l := log + [e];
    var i :| 0 <= i < |l| && ProvenAt(l, i, t, launch) && StoodSince(l, i, t, launch);
    assert l[|log|] == e && i < |log|;
    assert forall k | 0 <= k < |log| :: l[k] == log[k];
    assert ProvenAt(log, i, t, launch) && StoodSince(log, i, t, launch);
  }

  lemma ReconciledJustifies(log: seq<Entry>, inv: Inventory, t: Token, launch: Launch)
    ensures Justified(log + [Reconciled(inv)], t, launch)
            <==> t in inv.live && t in inv.pending && inv.pending[t] == launch
  {
    var l := log + [Reconciled(inv)];
    assert l[|log|] == Reconciled(inv);
    if t in inv.live && t in inv.pending && inv.pending[t] == launch {
      assert ProvenAt(l, |log|, t, launch) && StoodSince(l, |log|, t, launch);
    }
    if i :| 0 <= i < |l| && ProvenAt(l, i, t, launch) && StoodSince(l, i, t, launch) {
      assert i == |log|;
    }
  }

  lemma ReadIsExact(live: map<Token, Launch>, log: seq<Entry>, pending: map<Token, Launch>)
    requires Exact(live, log)
    ensures Exact(Agreeing(live, pending), log + [CacheRead(pending)])
  {
    var e := CacheRead(pending);
    forall t, launch
      ensures Holds(Agreeing(live, pending), t, launch) <==> Justified(log + [e], t, launch)
    {
      assert Holds(live, t, launch) <==> Justified(log, t, launch);
      if Holds(Agreeing(live, pending), t, launch) { StandingGoesOn(log, e, t, launch); }
      if Justified(log + [e], t, launch) { StoodBefore(log, e, t, launch); }
    }
  }

  lemma PublishedIsExact(live: map<Token, Launch>, log: seq<Entry>, e: Entry)
    requires Exact(live, log) && e.Published?
    ensures Exact(live, log + [e])
  {
    forall t, launch
      ensures Holds(live, t, launch) <==> Justified(log + [e], t, launch)
    {
      assert Holds(live, t, launch) <==> Justified(log, t, launch);
      if Holds(live, t, launch) { StandingGoesOn(log, e, t, launch); }
      if Justified(log + [e], t, launch) { StoodBefore(log, e, t, launch); }
    }
  }

  lemma DoubtIsExact(log: seq<Entry>)
    ensures Exact(map[], log + [Doubted])
  {
    forall t, launch
      ensures !Justified(log + [Doubted], t, launch)
    {
      if Justified(log + [Doubted], t, launch) { StoodBefore(log, Doubted, t, launch); }
    }
  }

  lemma ProvenIsExact(log: seq<Entry>, inv: Inventory)
    ensures Exact(Proven(inv), log + [Reconciled(inv)])
  {
    forall t, launch
      ensures Holds(Proven(inv), t, launch) <==> Justified(log + [Reconciled(inv)], t, launch)
    {
      ReconciledJustifies(log, inv, t, launch);
    }
  }

  lemma BoardItemsAreHonest(w: World, r: Read)
    requires Honest(w)
    ensures Honest(BoardItems(w, r))
  {
    ShownExtends(w.log, CacheRead(r.pending));
    ReadIsExact(w.evidence, w.log, r.pending);
  }

  lemma PublishIsHonest(w: World)
    requires Honest(w)
    ensures Honest(Publish(w))
  {
    ShownExtends(w.log, Published(w.evidence));
    PublishedIsExact(w.evidence, w.log, Published(w.evidence));
  }

  lemma PublishCachedIsHonest(w: World, r: Read)
    requires Honest(w)
    ensures Honest(PublishCached(w, r))
  {
    BoardItemsAreHonest(w, r);
    PublishIsHonest(BoardItems(w, r));
  }

  lemma InvalidateIsHonest(w: World, r: Read)
    requires Honest(w)
    ensures Honest(Invalidate(w, r))
  {
    ShownExtends(w.log, Doubted);
    DoubtIsExact(w.log);
    PublishCachedIsHonest(w.(log := w.log + [Doubted], evidence := map[]), r);
  }

  lemma PollIsHonest(w: World, c: Check, r: Read)
    requires Honest(w)
    ensures Honest(Poll(w, c, r))
  {
    var (w1, changed) := StoreChanged(w, c);
    BoardItemsAreHonest(w1, r);
    PublishIsHonest(BoardItems(w1, r));
  }

  lemma ReconcileIsHonest(w: World, env: Env)
    requires Honest(w)
    ensures Honest(Reconcile(w, env))
  {
    match env.inventory
    case None => InvalidateIsHonest(w, env.board);
    case Some(i) =>
      var w0 := w.(evidence := Proven(i), log := w.log + [Reconciled(i)]);
      ShownExtends(w.log, Reconciled(i));
      ProvenIsExact(w.log, i);
      BoardItemsAreHonest(w0, env.board);
      var w1 := BoardItems(w0, env.board);
      PublishIsHonest(w1);
      PollIsHonest(Publish(w1), env.check, env.again);
  }

  lemma HandoffIsHonest(w: World, env: Env)
    requires Honest(w)
    ensures Honest(Handoff(w, env))
  {
    InvalidateIsHonest(w, env.doubt);
    PublishCachedIsHonest(if env.owner then w else Invalidate(w, env.doubt), env.handoff);
  }

  lemma TurnIsHonest(w: World, env: Env)
    requires Honest(w)
    ensures Honest(Turn(w, env))
  {
    if env.enabled {
      HandoffIsHonest(w, env);
      var w1 := Handoff(w, env);
      ReconcileIsHonest(w1, env);
      assert Honest(Sweep(w1, env));
      PollIsHonest(Sweep(w1, env), env.wakeCheck, env.wakeRead);
    } else {
      InvalidateIsHonest(w, env.doubt);
    }
  }

  lemma {:induction false} RunIsHonest(w: World, turns: seq<Env>)
    requires Honest(w)
    ensures Honest(Run(w, turns))
    decreases |turns|
  {
    if turns != [] {
      TurnIsHonest(w, turns[0]);
      RunIsHonest(Turn(w, turns[0]), turns[1..]);
    }
  }

  /** At every publication a launch is shown as live exactly if the identical
      record was stored and its process alive in the inventory of the latest
      successful reconciliation, and nothing since gave reason to doubt it. */
  lemma LivenessIsExact(first: nat, gap: nat, watching: bool, observing: bool, now: int, turns: seq<Env>, k: nat,
      t: Token, launch: Launch)
    ensures var log := Run(Start(first, gap, watching, observing, now), turns).log;
            k < |log| && log[k].Published? ==>
              (t in log[k].live && log[k].live[t] == launch <==> Justified(log[..k], t, launch))
  {
    var start := Start(first, gap, watching, observing, now);
    RunIsHonest(start, turns);
    var log := Run(start, turns).log;
    if k < |log| && log[k].Published? {
      assert Holds(log[k].live, t, launch) <==> Justified(log[..k], t, launch);
    }
  }

  // Which turns reconcile, and what they make of the evidence.

  /** A full reconciliation is run by the lease's holder, once its time has come,
      but not at the turn that hands over from an exact open. */
  predicate Sweeps(w: World, env: Env) {
    env.enabled && env.owner && !env.stopped && w.observing && env.now >= w.nextReconcile
  }

  /** These entries follow what was logged before. */
  predicate Follows(log: seq<Entry>, before: nat, entries: seq<Entry>) {
    before + |entries| <= |log| && forall i | 0 <= i < |entries| :: log[before + i] == entries[i]
  }

  /** The log goes on without a reconciliation. */
  predicate GoesOn(before: seq<Entry>, log: seq<Entry>) {
    before <= log && forall k | |before| <= k < |log| :: !log[k].Reconciled?
  }

  /** The log goes on with one reconciliation, first. */
  predicate GoesOnWith(before: seq<Entry>, log: seq<Entry>, i: Inventory) {
    && before <= log && |before| < |log| && log[|before|] == Reconciled(i)
    && forall k | |before| < k < |log| :: !log[k].Reconciled?
  }

  lemma GoesOnTwice(a: seq<Entry>, b: seq<Entry>, c: seq<Entry>, i: Inventory)
    requires GoesOn(b, c)
    ensures GoesOn(a, b) ==> GoesOn(a, c)
    ensures GoesOnWith(a, b, i) ==> GoesOnWith(a, c, i)
  {
  }

  lemma PollLogs(w: World, c: Check, r: Read)
    ensures GoesOn(w.log, Poll(w, c, r).log)
    ensures forall t | t in Poll(w, c, r).evidence :: Holds(w.evidence, t, Poll(w, c, r).evidence[t])
  {
  }

  lemma CachedLogs(w: World, r: Read)
    ensures var w' := PublishCached(w, r);
            && GoesOn(w.log, w'.log)
            && (forall t | t in w'.evidence :: Holds(w.evidence, t, w'.evidence[t]))
            && w'.observing == w.observing && w'.nextReconcile == w.nextReconcile
  {
  }

  lemma InvalidateLogs(w: World, r: Read)
    ensures var w' := Invalidate(w, r);
            && GoesOn(w.log, w'.log)
            && w'.evidence == map[] && w'.observing == w.observing && w'.nextReconcile == w.nextReconcile
  {
    CachedLogs(w.(log := w.log + [Doubted], evidence := map[]), r);
  }

  lemma HandoffLogs(w: World, env: Env)
    ensures GoesOn(w.log, Handoff(w, env).log)
    ensures forall t | t in Handoff(w, env).evidence :: Holds(w.evidence, t, Handoff(w, env).evidence[t])
    ensures !env.owner ==> Handoff(w, env).evidence == map[]
    ensures w.observing && env.owner ==> Handoff(w, env) == w
    ensures Due(Handoff(w, env), env) <==> env.owner && w.observing && env.now >= w.nextReconcile
  {
    InvalidateLogs(w, env.doubt);
    CachedLogs(if env.owner then w else Invalidate(w, env.doubt), env.handoff);
  }

  lemma ReconcileLogs(w: World, env: Env)
    ensures var w' := Reconcile(w, env);
            && (env.inventory.None? ==> w'.evidence == map[] && GoesOn(w.log, w'.log))
            && (env.inventory.Some? ==>
                  && GoesOnWith(w.log, w'.log, env.inventory.value)
                  && forall t | t in w'.evidence :: Holds(Proven(env.inventory.value), t, w'.evidence[t]))
            && w'.observing == w.observing
  {
    match env.inventory
    case None => InvalidateLogs(w, env.board);
    case Some(i) =>
      var w1 := BoardItems(w.(evidence := Proven(i), log := w.log + [Reconciled(i)]), env.board);
      assert GoesOnWith(w.log, w1.log, i);
      if env.board.outcome.Whole? {
        PollLogs(Publish(w1), env.check, env.again);
        GoesOnTwice(w.log, Publish(w1).log, Reconcile(w, env).log, i);
      }
  }

  /** The evidence a turn leaves: none if the loop was paused, without the lease
      or failed to reconcile; what was alive in the inventory if it reconciled; and
      otherwise only what there was. */
  lemma TurnLeaves(w: World, env: Env)
    ensures var w' := Turn(w, env);
            && (!env.enabled || !env.owner ==> w'.evidence == map[])
            && (Sweeps(w, env) && env.inventory.None? ==> w'.evidence == map[])
            && (Sweeps(w, env) && env.inventory.Some? ==>
                  var i := env.inventory.value;
                  forall t | t in w'.evidence :: t in i.live && t in i.pending && i.pending[t] == w'.evidence[t])
            && (!Sweeps(w, env) ==> forall t | t in w'.evidence :: Holds(w.evidence, t, w'.evidence[t]))
  {
    if env.enabled {
      HandoffLogs(w, env);
      var w1 := Handoff(w, env);
      if !(Due(w1, env) && env.stopped) {
        ReconcileLogs(w1, env);
        PollLogs(Sweep(w1, env), env.wakeCheck, env.wakeRead);
      }
    }
  }

  /** The turn at which the launch was last proven: the loop was let run and held
      the lease, then and ever since. */
  ghost predicate EarnedAt(start: World, turns: seq<Env>, i: nat, t: Token, launch: Launch)
    requires i < |turns|
  {
    && Sweeps(Run(start, turns[..i]), turns[i])
    && turns[i].inventory.Some? && t in turns[i].inventory.value.live
    && Holds(turns[i].inventory.value.pending, t, launch)
    && forall k | i < k < |turns| ::
         turns[k].enabled && turns[k].owner && !Sweeps(Run(start, turns[..k]), turns[k])
  }

  lemma EarnedGoesOn(start: World, turns: seq<Env>, env: Env, t: Token, launch: Launch, i: nat)
    requires i < |turns| && EarnedAt(start, turns, i, t, launch)
    requires env.enabled && env.owner && !Sweeps(Run(start, turns), env)
    ensures EarnedAt(start, turns + [env], i, t, launch)
  {
    var all := turns + [env];
    assert all[..i] == turns[..i] && all[i] == turns[i];
    forall k | i < k < |all| ensures all[k].enabled && all[k].owner && !Sweeps(Run(start, all[..k]), all[k]) {
      assert all[..k] == if k < |turns| then turns[..k] else turns;
    }
  }

  /** Over any turns, whatever launch is held as live was proven by the inventory
      of the latest turn that reconciled, and the loop has been let run and held
      the lease ever since. */
  lemma {:induction false} LivenessIsEarned(start: World, turns: seq<Env>, t: Token) returns (i: nat)
    requires start.evidence == map[] && t in Run(start, turns).evidence
    ensures i < |turns| && EarnedAt(start, turns, i, t, Run(start, turns).evidence[t])
    decreases |turns|
  {
    assert turns != [];
    var n := |turns| - 1;
    var w, env := Run(start, turns[..n]), turns[n];
    assert turns[..n] + [env] == turns && [env][1..] == [];
    RunAppend(start, turns[..n], [env]);
    TurnLeaves(w, env);
    if Sweeps(w, env) {
      i := n;
    } else {
      assert t in w.evidence;
      i := LivenessIsEarned(start, turns[..n], t);
      EarnedGoesOn(start, turns[..n], env, t, w.evidence[t], i);
    }
  }

  /** The converse of a whole turn: reconciling logs its inventory, and when the
      board can be read then, what is published is every launch that is pending
      and alive in the inventory and still stored unchanged, and no other. */
  lemma ProvenIsPublished(w: World, env: Env) returns (live: map<Token, Launch>)
    requires Sweeps(w, env) && env.inventory.Some? && env.board.outcome.Whole?
    ensures var i := env.inventory.value;
            && (forall t :: t in live <==>
                  t in i.live && t in i.pending && t in env.board.pending && env.board.pending[t] == i.pending[t])
            && (forall t | t in live :: live[t] == i.pending[t])
            && Follows(Turn(w, env).log, |w.log|, [Reconciled(i), CacheRead(env.board.pending), Published(live)])
  {
    HandoffLogs(w, env);
    live := Agreeing(Proven(env.inventory.value), env.board.pending);
    var w1 := Reconcile(w, env).(nextReconcile := env.later + RECONCILE_INTERVAL);
    ReconcilePublishes(w, env, live);
    PollLogs(w1, env.wakeCheck, env.wakeRead);
  }

  lemma ReconcilePublishes(w: World, env: Env, live: map<Token, Launch>)
    requires env.inventory.Some? && env.board.outcome.Whole?
    requires live == Agreeing(Proven(env.inventory.value), env.board.pending)
    ensures Follows(Reconcile(w, env).log, |w.log|,
                    [Reconciled(env.inventory.value), CacheRead(env.board.pending), Published(live)])
  {
    var i := env.inventory.value;
    var w1 := Publish(BoardItems(w.(evidence := Proven(i), log := w.log + [Reconciled(i)]), env.board));
    assert Follows(w1.log, |w.log|, [Reconciled(i), CacheRead(env.board.pending), Published(live)]);
    PollLogs(w1, env.check, env.again);
  }

  lemma TurnLogs(w: World, env: Env)
    ensures var w' := Turn(w, env);
            if Sweeps(w, env) && env.inventory.Some? then GoesOnWith(w.log, w'.log, env.inventory.value)
            else GoesOn(w.log, w'.log)
  {
    if env.enabled {
      HandoffLogs(w, env);
      var w1 := Handoff(w, env);
      if !(Due(w1, env) && env.stopped) {
        ReconcileLogs(w1, env);
        var w2 := Sweep(w1, env);
        PollLogs(w2, env.wakeCheck, env.wakeRead);
        var i := if env.inventory.Some? then env.inventory.value else Inventory(map[], {});
        if !(Sweeps(w, env) && env.inventory.Some?) { GoesOnTwice(w.log, w1.log, w2.log, i); }
        GoesOnTwice(w.log, w2.log, Turn(w, env).log, i);
      }
    } else {
      InvalidateLogs(w, env.doubt);
    }
  }

  /** A turn reconciles exactly when its time has come, and only then is an
      inventory logged. */
  lemma ReconcilesExactlyWhenDue(w: World, env: Env, i: Inventory)
    ensures (exists k :: |w.log| <= k < |Turn(w, env).log| && Turn(w, env).log[k] == Reconciled(i))
            <==> Sweeps(w, env) && env.inventory == Some(i)
  {
    TurnLogs(w, env);
    var log := Turn(w, env).log;
    if Sweeps(w, env) && env.inventory.Some? { assert log[|w.log|] == Reconciled(env.inventory.value); }
  }

  /** When the next reconciliation is due: at once after a pause or a request, and
      twenty seconds after the last one or the handoff. A pause and a request each
      bring the next turn of the lease's holder to reconcile. */
  lemma NextIsDue(w: World, env: Env)
    ensures var w' := Turn(w, env);
            && (!env.enabled ==> w'.nextReconcile == env.now && w'.observing == w.observing)
            && (env.enabled ==> w'.observing)
            && (env.enabled && !(env.stopped && env.owner && w.observing && env.now >= w.nextReconcile) ==>
                  w'.nextReconcile == if env.wake.Asked? then env.later
                                      else if Sweeps(w, env) then env.later + 20
                                      else if !w.observing then env.now + 20
                                      else w.nextReconcile)
  {
    if env.enabled {
      HandoffTimes(w, env);
      PollTimes(Sweep(Handoff(w, env), env), env.wakeCheck, env.wakeRead);
    }
  }

  lemma PollTimes(w: World, c: Check, r: Read)
    ensures Poll(w, c, r).nextReconcile == w.nextReconcile && Poll(w, c, r).observing == w.observing
  {
  }

  lemma HandoffTimes(w: World, env: Env)
    ensures var w' := Handoff(w, env);
            && w'.observing
            && w'.nextReconcile == (if w.observing then w.nextReconcile else env.now + 20)
            && (Due(w', env) <==> env.owner && w.observing && env.now >= w.nextReconcile)
            && Reconcile(w', env).observing
  {
    InvalidateLogs(w, env.doubt);
    CachedLogs(if env.owner then w else Invalidate(w, env.doubt), env.handoff);
    ReconcileLogs(Handoff(w, env), env);
  }

  // The loop in place.

  class Loop {
    var seen: nat
    var watcher: Option<nat>
    var evidence: map<Token, Launch>
    var published: nat
    var observing: bool
    var nextReconcile: int
    ghost var reloaded: bool
    ghost var log: seq<Entry>

    ghost function Now(): World
      reads this
    {
      World(seen, watcher, evidence, published, observing, nextReconcile, reloaded, log)
    }

    /** Keeps only evidence whose row is stored unchanged. */
    method ReadBoard(r: Read) returns (ok: bool)
      modifies this
      ensures Now() == BoardItems(old(Now()), r) && ok == r.outcome.Whole?
    {
      seen := seen + r.commits;
      if !r.outcome.Unread? {
        evidence := map t | t in evidence && t in r.pending && r.pending[t] == evidence[t] :: evidence[t];
        log := log + [CacheRead(r.pending)];
      }
      ok := r.outcome.Whole?;
    }

    method Show()
      modifies this
      ensures Now() == Publish(old(Now()))
    {
      published := seen;
      reloaded := true;
      log := log + [Published(evidence)];
    }

    method ShowCached(r: Read)
      modifies this
      ensures Now() == PublishCached(old(Now()), r)
    {
      var ok := ReadBoard(r);
      if ok {
        Show();
      }
    }

    method InvalidateEvidence(r: Read)
      modifies this
      ensures Now() == Invalidate(old(Now()), r)
    {
      log := log + [Doubted];
      if evidence != map[] {
        evidence := map[];
        ShowCached(r);
      }
    }

    method HasChanged(c: Check) returns (changed: bool)
      modifies this`seen, this`watcher
      ensures (Now(), changed) == StoreChanged(old(Now()), c)
    {
      seen := seen + c.commits;
      if watcher.None? {
        watcher := if c.ok then Some(seen) else None;
        return watcher.Some?;
      }
      if !c.ok {
        watcher := None;
        return false;
      }
      changed := seen != watcher.value;
      watcher := Some(seen);
    }

    /** A reload that fails forgets the watcher, so that the next poll reloads
        even if nothing else is committed. */
    method ShowChanges(c: Check, r: Read)
      modifies this
      ensures Now() == Poll(old(Now()), c, r)
    {
      var changed := HasChanged(c);
      if changed {
        var ok := ReadBoard(r);
        if ok {
          Show();
        } else {
          watcher := None;
        }
      }
    }

    method ReconcileNow(env: Env)
      modifies this
      ensures Now() == Reconcile(old(Now()), env)
    {
      if env.inventory.None? {
        InvalidateEvidence(env.board);
        return;
      }
      var i := env.inventory.value;
      evidence := map t | t in i.pending && t in i.live :: i.pending[t];
      log := log + [Reconciled(i)];
      var ok := ReadBoard(env.board);
      if ok {
        Show();
        ShowChanges(env.check, env.again);
      }
    }

    /** Without the lease no liveness is claimed; the first turn after an exact
        open shows what the open committed. */
    method BeginTurn(env: Env)
      modifies this
      ensures Now() == Handoff(old(Now()), env)
    {
      if !env.owner {
        InvalidateEvidence(env.doubt);
      }
      if !observing {
        ShowCached(env.handoff);
        nextReconcile := env.now + RECONCILE_INTERVAL;
        observing := true;
      }
    }

    method TakeTurn(env: Env)
      modifies this
      ensures Now() == Turn(old(Now()), env)
    {
      if !env.enabled {
        InvalidateEvidence(env.doubt);
        nextReconcile := env.now;
        return;
      }
      BeginTurn(env);
      if env.owner && env.now >= nextReconcile {
        if env.stopped {
          return;
        }
        ReconcileNow(env);
        nextReconcile := env.later + RECONCILE_INTERVAL;
      }
      match env.wake
      case Asked => nextReconcile := env.later;
      case Timeout => ShowChanges(env.wakeCheck, env.wakeRead);
      case Gone =>
    }
  }
}
