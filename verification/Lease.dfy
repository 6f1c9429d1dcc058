/** The observation lease: one lock on one file per profile, shared by the
    observers of every process, and held through each read in flight. */
module Lease {
  import opened Wrappers

  /** An open file description; the lock belongs to one of these. */
  type File = nat

  /** An observer: one lease object, in some process. */
  datatype Observer = Observer(process: int, id: int)

  /** Each observer has a local and a remote worker, and each worker holds at
      most one handle at a time. */
  datatype Role = Local | Remote

  datatype Holder = Holder(observer: Observer, role: Role)

  datatype World = World(slots: map<Observer, File>, handles: map<Holder, File>, lock: Option<File>, files: nat)

  predicate Referenced(w: World, f: File) {
    (exists o | o in w.slots :: w.slots[o] == f) || (exists h | h in w.handles :: w.handles[h] == f)
  }

  /** A file with no reference left is closed, which gives up its lock. */
  function Closed(w: World): World {
    if w.lock.Some? && !Referenced(w, w.lock.value) then w.(lock := None) else w
  }

  /** The local worker asks for the lease; `opens` says that the file can be
      files. The handle it held before is gone. */
  function Acquired(w: World, o: Observer, enabled: bool, opens: bool): World {
    var before := Closed(w.(handles := w.handles - {Holder(o, Local)}));
    if !enabled then Closed(before.(slots := before.slots - {o}))
    else if o in before.slots then before.(handles := before.handles[Holder(o, Local) := before.slots[o]])
    else if !opens then before
    else if before.lock.Some? then before.(files := before.files + 1)
    else
      var f := before.files;
      before.(files := f + 1, lock := Some(f), slots := before.slots[o := f],
        handles := before.handles[Holder(o, Local) := f])
  }

  /** The remote worker takes whatever lease its observer holds. */
  function Taken(w: World, o: Observer): World {
    var before := Closed(w.(handles := w.handles - {Holder(o, Remote)}));
    if o in before.slots then before.(handles := before.handles[Holder(o, Remote) := before.slots[o]]) else before
  }

  function Released(w: World, o: Observer): World { Closed(w.(slots := w.slots - {o})) }

  function Dropped(w: World, h: Holder): World { Closed(w.(handles := w.handles - {h})) }

  function ProcessDies(w: World, process: int): World {
    Closed(w.(slots := map o | o in w.slots && o.process != process :: w.slots[o],
              handles := map h | h in w.handles && h.observer.process != process :: w.handles[h]))
  }

  datatype Event =
    | Acquiring(o: Observer, enabled: bool, opens: bool)
    | Taking(o: Observer)
    | Releasing(o: Observer)
    | Dropping(h: Holder)
    | Dying(process: int)

  function Step(w: World, e: Event): World {
    match e
    case Acquiring(o, enabled, opens) => Acquired(w, o, enabled, opens)
    case Taking(o) => Taken(w, o)
    case Releasing(o) => Released(w, o)
    case Dropping(h) => Dropped(w, h)
    case Dying(p) => ProcessDies(w, p)
  }

  function Run(w: World, events: seq<Event>): World
    decreases |events|
  {
    if events == [] then w else Run(Step(w, events[0]), events[1..])
  }

  const START := World(map[], map[], None, 0)

  /** Everything held is the locked file, held within one observer. */
  ghost predicate Inv(w: World) {
    && (forall o | o in w.slots :: w.lock == Some(w.slots[o]))
    && (forall h | h in w.handles :: w.lock == Some(w.handles[h]))
    && (w.lock.Some? ==> Referenced(w, w.lock.value) && w.lock.value < w.files)
    && (forall o, p | o in w.slots && p in w.slots :: o == p)
    && (forall h, k | h in w.handles && k in w.handles :: h.observer == k.observer)
    && (forall o, h | o in w.slots && h in w.handles :: o == h.observer)
  }

  lemma FewerKeeps(w: World, w': World)
    requires Inv(w) && w'.lock == w.lock && w'.files == w.files
    requires forall o | o in w'.slots :: o in w.slots && w'.slots[o] == w.slots[o]
    requires forall h | h in w'.handles :: h in w.handles && w'.handles[h] == w.handles[h]
    ensures Inv(Closed(w'))
  {
  }

  lemma AcquireKeeps(w: World, o: Observer, enabled: bool, opens: bool)
    requires Inv(w)
    ensures Inv(Acquired(w, o, enabled, opens))
  {
    var without := w.(handles := w.handles - {Holder(o, Local)});
    FewerKeeps(w, without);
    var before := Closed(without);
    FewerKeeps(before, before.(slots := before.slots - {o}));
    var after := Acquired(w, o, enabled, opens);
    if enabled && Holder(o, Local) in after.handles {
      assert o in after.slots && after.lock == Some(after.slots[o]);
      if o !in before.slots { NothingHeld(before); }
    }
  }

  lemma NothingHeld(w: World)
    requires Inv(w) && w.lock.None?
    ensures w.slots == map[] && w.handles == map[]
  {
    assert forall o :: o !in w.slots;
    assert forall h :: h !in w.handles;
  }

  lemma CurrentKeeps(w: World, o: Observer)
    requires Inv(w)
    ensures Inv(Taken(w, o))
  {
    var without := w.(handles := w.handles - {Holder(o, Remote)});
    FewerKeeps(w, without);
    var after := Taken(w, o);
    if o in Closed(without).slots {
      assert o in after.slots && after.lock == Some(after.slots[o]);
    }
  }

  lemma StepKeeps(w: World, e: Event)
    requires Inv(w)
    ensures Inv(Step(w, e))
  {
    match e
    case Acquiring(o, enabled, opens) => AcquireKeeps(w, o, enabled, opens);
    case Taking(o) => CurrentKeeps(w, o);
    case Releasing(o) => FewerKeeps(w, w.(slots := w.slots - {o}));
    case Dropping(h) => FewerKeeps(w, w.(handles := w.handles - {h}));
    case Dying(p) =>
      FewerKeeps(w, w.(slots := map o | o in w.slots && o.process != p :: w.slots[o],
                       handles := map h | h in w.handles && h.observer.process != p :: w.handles[h]));
  }

  lemma {:induction false} RunKeeps(w: World, events: seq<Event>)
    requires Inv(w)
    ensures Inv(Run(w, events))
    decreases |events|
  {
    if events != [] {
      StepKeeps(w, events[0]);
      RunKeeps(Step(w, events[0]), events[1..]);
    }
  }

  /** Whatever the observers and processes do, all handles alive at one time are
      of one open file and one observer: a local and a remote read in flight
      together share one lease. */
  lemma OneHolder(events: seq<Event>, h: Holder, k: Holder)
    ensures var w := Run(START, events);
            h in w.handles && k in w.handles ==> w.handles[h] == w.handles[k] && h.observer == k.observer
  {
    RunKeeps(START, events);
  }

  /** Asking gives a lease exactly when the asker still holds it, or nobody
      else has anything of any lease and the file opens; what it gives while
      another handle is alive is that handle's own lease. */
  lemma AcquiredExactlyWhenFree(events: seq<Event>, o: Observer, opens: bool)
    ensures var w, local := Run(START, events), Holder(o, Local);
            var after := Acquired(w, o, true, opens);
            && (local in after.handles <==> o in w.slots || (opens && w.slots == map[] && w.handles.Keys <= {local}))
            && (local in after.handles ==>
                   forall h | h in w.handles && h != local :: after.handles[local] == w.handles[h])
  {
    RunKeeps(START, events);
    var w, local := Run(START, events), Holder(o, Local);
    var without := w.(handles := w.handles - {local});
    FewerKeeps(w, without);
    AcquireKeeps(w, o, true, opens);
    var before := Closed(without);
    if before.lock.None? {
      NothingHeld(before);
      assert forall h | h in w.handles :: h == local || h in before.handles;
    }
    if w.slots == map[] && w.handles.Keys <= {local} {
      assert forall h :: h !in before.handles;
      assert before.lock.None?;
    }
  }

  /** A process that dies takes its own observers' leases and handles with it, and
      no others; and the lock is free then exactly if it had all there was. */
  lemma DeathFreesItsOwn(events: seq<Event>, process: int)
    ensures var w := Run(START, events);
            var after := Step(w, Dying(process));
            && (forall o :: o in after.slots <==> o in w.slots && o.process != process)
            && (forall o | o in after.slots :: after.slots[o] == w.slots[o])
            && (forall h :: h in after.handles <==> h in w.handles && h.observer.process != process)
            && (forall h | h in after.handles :: after.handles[h] == w.handles[h])
            && (after.lock.None? <==>
                  (forall o | o in w.slots :: o.process == process)
                  && forall h | h in w.handles :: h.observer.process == process)
  {
    RunKeeps(START, events);
    StepKeeps(Run(START, events), Dying(process));
    var after := Step(Run(START, events), Dying(process));
    if after.lock.None? { NothingHeld(after); }
  }

  /** A handle stays, on its own file, exactly until a step that ends it; and a
      worker that asks while its observer has a lease is given that one. */
  lemma HandleStaysUntilEnded(events: seq<Event>, e: Event, h: Holder)
    ensures var w := Run(START, events);
            var after := Step(w, e);
            && (h in w.handles && !Ends(e, h) ==> h in after.handles && after.handles[h] == w.handles[h])
            && (h in after.handles && !(h in w.handles && after.handles[h] == w.handles[h]) ==>
                  && h.observer in after.slots && after.handles[h] == after.slots[h.observer]
                  && ((e.Acquiring? && e.enabled && h == Holder(e.o, Local))
                      || (e.Taking? && h == Holder(e.o, Remote))))
            && (h in after.handles && Ends(e, h) ==>
                  ((e.Acquiring? && e.enabled) || e.Taking?) && h.observer in after.slots)
  {
    RunKeeps(START, events);
    StepKeeps(Run(START, events), e);
  }

  /** Reads that outlive their observer's release: no slot is left, but a handle
      is. */
  ghost predicate Draining(w: World) { Inv(w) && w.slots == map[] && w.handles != map[] }

  /** The steps that end a handle's life. */
  predicate Ends(e: Event, h: Holder) {
    match e
    case Acquiring(o, _, _) => h == Holder(o, Local)
    case Taking(o) => h == Holder(o, Remote)
    case Releasing(_) => false
    case Dropping(k) => h == k
    case Dying(p) => h.observer.process == p
  }

  lemma DrainingStep(w: World, e: Event, h: Holder)
    requires Draining(w) && h in w.handles && !Ends(e, h)
    ensures var w' := Step(w, e);
            && Draining(w') && h in w'.handles
            && forall k | k in w'.handles :: k in w.handles && w'.handles[k] == w.handles[k]
  {
    StepKeeps(w, e);
    assert w.lock == Some(w.handles[h]);
    var w' := Step(w, e);
    assert h in w'.handles;
    assert w'.slots == map[];
  }

  /** While some handle lives on after its observer's release, nobody gets a
      lease, not even that observer: whatever else happens, no handle and no
      slot is added. */
  lemma {:induction false} NobodyWhileDraining(w: World, events: seq<Event>, h: Holder)
    requires Draining(w) && h in w.handles
    requires forall i | 0 <= i < |events| :: !Ends(events[i], h)
    ensures var w' := Run(w, events);
            && Draining(w') && h in w'.handles
            && forall k | k in w'.handles :: k in w.handles && w'.handles[k] == w.handles[k]
    decreases |events|
  {
    if events != [] {
      DrainingStep(w, events[0], h);
      NobodyWhileDraining(Step(w, events[0]), events[1..], h);
    }
  }

  // The lease objects and their workers, in place.

  class System {
    var slots: map<Observer, File>
    var handles: map<Holder, File>
    var lock: Option<File>
    var files: nat

    function Now(): World
      reads this
    {
      World(slots, handles, lock, files)
    }

    method CloseUnused()
      modifies this`lock
      ensures Now() == Closed(old(Now()))
    {
      if lock.Some? && !Referenced(Now(), lock.value) {
        lock := None;
      }
    }

    method Drop(h: Holder)
      modifies this`handles, this`lock
      ensures Now() == Dropped(old(Now()), h)
    {
      handles := handles - {h};
      CloseUnused();
    }

    method Release(o: Observer)
      modifies this`slots, this`lock
      ensures Now() == Released(old(Now()), o)
    {
      slots := slots - {o};
      CloseUnused();
    }

    method Acquire(o: Observer, enabled: bool, opens: bool) returns (lease: Option<File>)
      modifies this
      ensures Now() == Acquired(old(Now()), o, enabled, opens)
      ensures lease == if Holder(o, Local) in handles then Some(handles[Holder(o, Local)]) else None
    {
      Drop(Holder(o, Local));
      if !enabled {
        Release(o);
        return None;
      }
      if o in slots {
        handles := handles[Holder(o, Local) := slots[o]];
        return Some(slots[o]);
      }
      if !opens {
        return None;
      }
      var file := files;
      files := files + 1;
      if lock.Some? {
        return None;
      }
      lock := Some(file);
      slots := slots[o := file];
      handles := handles[Holder(o, Local) := file];
      lease := Some(file);
    }

    method Current(o: Observer) returns (lease: Option<File>)
      modifies this`handles, this`lock
      ensures Now() == Taken(old(Now()), o)
      ensures lease == if Holder(o, Remote) in handles then Some(handles[Holder(o, Remote)]) else None
    {
      Drop(Holder(o, Remote));
      if o in slots {
        handles := handles[Holder(o, Remote) := slots[o]];
        lease := Some(slots[o]);
      } else {
        lease := None;
      }
    }
  }
}
