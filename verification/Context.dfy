/** Packing context: records, sources, methods and tools are tried one by one
    and taken back out if the package grows too large. */
module Context {
  import opened Wrappers
  import opened Memory

  const MAX_PACKAGE_BYTES: nat := 32 * 1024
  const MAX_SOURCES: nat := 64
  const MAX_QUERIES: nat := 4
  const MAX_QUERY_BYTES: nat := 4096
  const RECENT_INSTRUCTIONS: nat := 8

  /** The caller's limit, cut at 32 KiB. */
  type Limit = n: nat | n <= MAX_PACKAGE_BYTES

  datatype Source = Source(id: Id, revision: nat)

  datatype Method = Method(name: string, sources: seq<Source>)

  datatype Package = Package(records: seq<Id>, sources: seq<Source>, methods: seq<Method>, tools: seq<string>)

  /** The snapshot packed from, and the request's bounds. `size` is the encoded
      length of a package: any function at all. */
  datatype Env = Env(store: Store, versions: map<Id, nat>, scope: Scope, size: Package -> nat, limit: Limit)

  datatype Pack = Pack(package: Package, seen: set<Id>)

  const EMPTY := Pack(Package([], [], [], []), {})

  // One item.

  datatype Tried = Tried(pack: Pack, taken: bool)

  /** None if the record has no version. */
  function Include(env: Env, p: Pack, id: Id): Option<Tried> {
    if id in p.seen then Some(Tried(p, true))
    else if |p.package.sources| >= MAX_SOURCES then Some(Tried(p, false))
    else if id !in env.versions then None
    else
      var source := Source(id, env.versions[id]);
      var sources := if source in p.package.sources then p.package.sources else p.package.sources + [source];
      var next := p.package.(sources := sources, records := p.package.records + [id]);
      if env.size(next) > env.limit then Some(Tried(p, false)) else Some(Tried(Pack(next, p.seen + {id}), true))
  }

  function IncludeAll(env: Env, p: Pack, ids: seq<Id>): Option<Pack>
    decreases |ids|
  {
    if ids == [] then Some(p)
    else
      var first := Include(env, p, ids[0]);
      if first.None? then None else IncludeAll(env, first.value.pack, ids[1..])
  }

  predicate Sendable(env: Env, id: Id) {
    id < |env.store| && env.store[id].scope.Permits(env.scope) && !env.store[id].kind.Draft?
  }

  function RequireAll(env: Env, p: Pack, ids: seq<Id>): Option<Pack>
    decreases |ids|
  {
    if ids == [] then Some(p)
    else if !Sendable(env, ids[0]) then None
    else
      var first := Include(env, p, ids[0]);
      if first.None? || !first.value.taken then None else RequireAll(env, first.value.pack, ids[1..])
  }

  function AddTools(env: Env, p: Pack, tools: Option<seq<string>>): Pack {
    if tools.None? then p
    else if env.size(p.package.(tools := tools.value)) > env.limit then p.(package := p.package.(tools := []))
    else p.(package := p.package.(tools := tools.value))
  }

  function Combined(sources: seq<Source>, more: seq<Source>): seq<Source>
    decreases |more|
  {
    if more == [] then sources
    else Combined(if more[0] in sources then sources else sources + [more[0]], more[1..])
  }

  function AddMethod(env: Env, p: Pack, m: Method): Pack {
    var combined := Combined(p.package.sources, m.sources);
    var next := p.package.(sources := combined, methods := p.package.methods + [m]);
    if |combined| > MAX_SOURCES || env.size(next) > env.limit then p else p.(package := next)
  }

  function AddMethods(env: Env, p: Pack, methods: seq<Method>): Pack
    decreases |methods|
  {
    if methods == [] then p else AddMethods(env, AddMethod(env, p, methods[0]), methods[1..])
  }

  // Selections.

  function Select(s: Store, ids: seq<Id>, wanted: Record -> bool): seq<Id> {
    if ids == [] then [] else (if ids[0] < |s| && wanted(s[ids[0]]) then [ids[0]] else []) + Select(s, ids[1..], wanted)
  }

  function Take(ids: seq<Id>, n: nat): seq<Id> { if |ids| <= n then ids else ids[..n] }

  function Linked(s: Store, records: seq<Id>): seq<Id> {
    if records == [] then []
    else (if records[0] < |s| then s[records[0]].dependencies else []) + Linked(s, records[1..])
  }

  /** The exact sources of what is already packed. */
  function Links(env: Env, p: Pack): seq<Id> {
    Select(env.store, Take(Linked(env.store, p.package.records), MAX_SOURCES),
           (r: Record) => r.scope.Permits(env.scope) && !r.kind.Draft? && !r.kind.InferredPreference?)
  }

  function Unlearned(s: Store, ids: seq<Id>): seq<Id> { Select(s, ids, (r: Record) => !r.kind.InferredPreference?) }

  function Instructions(s: Store, ids: seq<Id>): seq<Id> {
    Take(Select(s, ids, (r: Record) => r.kind.UserInstruction? || r.kind.Correction?), RECENT_INSTRUCTIONS)
  }

  function Policies(s: Store, ids: seq<Id>): seq<Id> { Select(s, ids, (r: Record) => r.protectedPolicy) }

  /** What the memory's queries give, in the order they are asked. */
  datatype Request = Request(
    queries: seq<string>, required: seq<Id>, recent: seq<Id>, standing: seq<Id>, guidance: seq<Id>,
    tools: Option<seq<string>>, methods: seq<Method>, due: seq<Id>, general: seq<Id>)

  predicate ValidRequest(q: Request) {
    |q.queries| <= MAX_QUERIES && (forall i | 0 <= i < |q.queries| :: |q.queries[i]| <= MAX_QUERY_BYTES)
      && |q.required| <= MAX_SOURCES
  }

  function Adapt(env: Env, p: Pack, q: Request): Pack { AddMethods(env, AddTools(env, p, q.tools), q.methods) }

  function IncludeLists(env: Env, p: Pack, lists: seq<seq<Id>>): Option<Pack>
    decreases |lists|
  {
    if lists == [] then Some(p)
    else
      var r :- IncludeAll(env, p, lists[0]);
      IncludeLists(env, r, lists[1..])
  }

  /** Before tools and methods: what is required, protected policy, standing
      guidance, recent instructions, applicable guidance. */
  function Early(env: Env, q: Request): Option<Pack> {
    var required :- RequireAll(env, EMPTY, q.required);
    IncludeLists(env, required,
      [Policies(env.store, q.recent), q.standing, Instructions(env.store, q.recent), q.guidance])
  }

  /** After: due commitments, what the queries found, exact links, the recent. */
  function Late(env: Env, p: Pack, q: Request): Option<Pack> {
    var due :- IncludeAll(env, p, q.due);
    var found :- IncludeAll(env, due, Unlearned(env.store, q.general));
    var linked :- IncludeAll(env, found, Links(env, found));
    IncludeAll(env, linked, Unlearned(env.store, q.recent))
  }

  /** The package before its final check; none if a required record is missing,
      unsendable or too large. */
  function Gather(env: Env, q: Request): Option<Pack> {
    if !ValidRequest(q) then None
    else
      var early :- Early(env, q);
      Late(env, Adapt(env, early, q), q)
  }

  function Build(env: Env, q: Request): Option<Package> {
    var p :- Gather(env, q);
    if env.size(p.package) > env.limit then None else Some(p.package)
  }

  // What every step keeps.

  /** The methods' sources are current, as their own checks leave them. */
  predicate MethodsCurrent(env: Env, methods: seq<Method>) {
    forall i | 0 <= i < |methods| :: forall s | s in methods[i].sources :: Current(env, s)
  }

  predicate Current(env: Env, s: Source) { s.id in env.versions && s.revision == env.versions[s.id] }

  /** Within the limit unless nothing was ever added; at most 64 sources, all
      current and none twice; no record twice, and each with its source. */
  ghost predicate Packed(env: Env, p: Pack) {
    && (env.size(p.package) <= env.limit || p.package == EMPTY.package)
    && |p.package.sources| <= MAX_SOURCES
    && (forall s | s in p.package.sources :: Current(env, s))
    && (forall i, j | 0 <= i < j < |p.package.sources| :: p.package.sources[i] != p.package.sources[j])
    && (forall i, j | 0 <= i < j < |p.package.records| :: p.package.records[i] != p.package.records[j])
    && (forall id :: id in p.seen <==> id in p.package.records)
    && (forall id | id in p.package.records :: id in env.versions && Source(id, env.versions[id]) in p.package.sources)
  }

  /** Nothing is taken out once it is in. */
  ghost predicate Grows(p: Pack, q: Pack) {
    p.seen <= q.seen && forall s | s in p.package.sources :: s in q.package.sources
  }

  lemma IncludeKeeps(env: Env, p: Pack, id: Id)
    requires Packed(env, p) && Include(env, p, id).Some?
    ensures var t := Include(env, p, id).value;
            Packed(env, t.pack) && Grows(p, t.pack) && (t.taken <==> id in t.pack.seen) && (!t.taken ==> t.pack == p)
  {
    var t := Include(env, p, id).value;
    if t.pack != p {
      var source := Source(id, env.versions[id]);
      assert t.pack.package.records[|p.package.records|] == id;
      if source !in p.package.sources { assert t.pack.package.sources[|p.package.sources|] == source; }
    }
  }

  lemma {:induction false} IncludeAllKeeps(env: Env, p: Pack, ids: seq<Id>)
    requires Packed(env, p)
    ensures var r := IncludeAll(env, p, ids); r.Some? ==> Packed(env, r.value) && Grows(p, r.value)
    decreases |ids|
  {
    if ids != [] && Include(env, p, ids[0]).Some? {
      IncludeKeeps(env, p, ids[0]);
      IncludeAllKeeps(env, Include(env, p, ids[0]).value.pack, ids[1..]);
    }
  }

  lemma {:induction false} RequireAllKeeps(env: Env, p: Pack, ids: seq<Id>)
    requires Packed(env, p)
    ensures var r := RequireAll(env, p, ids);
            r.Some? ==>
                Packed(env, r.value) && Grows(p, r.value)
                && forall id | id in ids :: id in r.value.seen && Sendable(env, id)
    decreases |ids|
  {
    if ids != [] && Sendable(env, ids[0]) && Include(env, p, ids[0]).Some? {
      IncludeKeeps(env, p, ids[0]);
      RequireAllKeeps(env, Include(env, p, ids[0]).value.pack, ids[1..]);
    }
  }

  lemma {:induction false} CombinedIsUnion(env: Env, sources: seq<Source>, more: seq<Source>)
    requires (forall s | s in sources || s in more :: Current(env, s))
    requires forall i, j | 0 <= i < j < |sources| :: sources[i] != sources[j]
    ensures var r := Combined(sources, more);
            && (forall s :: s in r <==> s in sources || s in more)
            && (forall i, j | 0 <= i < j < |r| :: r[i] != r[j])
    decreases |more|
  {
    if more != [] {
      var next := if more[0] in sources then sources else sources + [more[0]];
      assert forall s :: s in more <==> s == more[0] || s in more[1..];
      assert forall s :: s in next <==> s in sources || s == more[0];
      CombinedIsUnion(env, next, more[1..]);
    }
  }

  lemma AddMethodKeeps(env: Env, p: Pack, m: Method)
    requires Packed(env, p) && forall s | s in m.sources :: Current(env, s)
    ensures Packed(env, AddMethod(env, p, m)) && Grows(p, AddMethod(env, p, m))
  {
    CombinedIsUnion(env, p.package.sources, m.sources);
  }

  lemma {:induction false} AddMethodsKeep(env: Env, p: Pack, methods: seq<Method>)
    requires Packed(env, p) && MethodsCurrent(env, methods)
    ensures Packed(env, AddMethods(env, p, methods)) && Grows(p, AddMethods(env, p, methods))
    decreases |methods|
  {
    if methods != [] {
      AddMethodKeeps(env, p, methods[0]);
      AddMethodsKeep(env, AddMethod(env, p, methods[0]), methods[1..]);
    }
  }

  /** The tools are added to a package that has none yet. */
  lemma AddToolsKeeps(env: Env, p: Pack, tools: Option<seq<string>>)
    requires Packed(env, p) && p.package.tools == []
    ensures Packed(env, AddTools(env, p, tools)) && Grows(p, AddTools(env, p, tools))
  {
    assert p.package.(tools := []) == p.package;
  }

  lemma {:induction false} IncludeAllAddsNoTools(env: Env, p: Pack, ids: seq<Id>)
    ensures IncludeAll(env, p, ids).Some? ==> IncludeAll(env, p, ids).value.package.tools == p.package.tools
    decreases |ids|
  {
    if ids != [] && Include(env, p, ids[0]).Some? {
      IncludeAllAddsNoTools(env, Include(env, p, ids[0]).value.pack, ids[1..]);
    }
  }

  lemma {:induction false} RequireAllAddsNoTools(env: Env, p: Pack, ids: seq<Id>)
    ensures RequireAll(env, p, ids).Some? ==> RequireAll(env, p, ids).value.package.tools == p.package.tools
    decreases |ids|
  {
    if ids != [] && Include(env, p, ids[0]).Some? {
      RequireAllAddsNoTools(env, Include(env, p, ids[0]).value.pack, ids[1..]);
    }
  }

  lemma {:induction false} IncludeListsKeep(env: Env, p: Pack, lists: seq<seq<Id>>)
    requires Packed(env, p)
    ensures var r := IncludeLists(env, p, lists);
            r.Some? ==> Packed(env, r.value) && p.seen <= r.value.seen && r.value.package.tools == p.package.tools
    decreases |lists|
  {
    if lists != [] {
      IncludeAllKeeps(env, p, lists[0]);
      IncludeAllAddsNoTools(env, p, lists[0]);
      var r := IncludeAll(env, p, lists[0]);
      if r.Some? { IncludeListsKeep(env, r.value, lists[1..]); }
    }
  }

  lemma EarlyKeeps(env: Env, q: Request)
    ensures var r := Early(env, q);
            r.Some? ==>
                Packed(env, r.value) && r.value.package.tools == []
                && forall id | id in q.required :: id in r.value.seen && Sendable(env, id)
  {
    RequireAllKeeps(env, EMPTY, q.required);
    RequireAllAddsNoTools(env, EMPTY, q.required);
    var required := RequireAll(env, EMPTY, q.required);
    if required.Some? {
      IncludeListsKeep(env, required.value,
        [Policies(env.store, q.recent), q.standing, Instructions(env.store, q.recent), q.guidance]);
    }
  }

  lemma LateKeeps(env: Env, p: Pack, q: Request)
    requires Packed(env, p)
    ensures var r := Late(env, p, q); r.Some? ==> Packed(env, r.value) && p.seen <= r.value.seen
  {
    IncludeAllKeeps(env, p, q.due);
    var due := IncludeAll(env, p, q.due);
    if due.Some? {
      IncludeAllKeeps(env, due.value, Unlearned(env.store, q.general));
      var found := IncludeAll(env, due.value, Unlearned(env.store, q.general));
      if found.Some? {
        IncludeAllKeeps(env, found.value, Links(env, found.value));
        var linked := IncludeAll(env, found.value, Links(env, found.value));
        if linked.Some? { IncludeAllKeeps(env, linked.value, Unlearned(env.store, q.recent)); }
      }
    }
  }

  lemma GatherKeeps(env: Env, q: Request)
    requires MethodsCurrent(env, q.methods)
    ensures var r := Gather(env, q);
            r.Some? ==>
                Packed(env, r.value)
                && forall id | id in q.required :: id in r.value.package.records && Sendable(env, id)
  {
    EarlyKeeps(env, q);
    var early := Early(env, q);
    if ValidRequest(q) && early.Some? {
      AddToolsKeeps(env, early.value, q.tools);
      AddMethodsKeep(env, AddTools(env, early.value, q.tools), q.methods);
      LateKeeps(env, Adapt(env, early.value, q), q);
    }
  }

  /** Whatever sizes are: a package that is built is within its limit, has at
      most 64 sources, no record twice, exactly one source for each record with
      the record's current revision, and every required record. */
  lemma BuiltIsSound(env: Env, q: Request)
    requires MethodsCurrent(env, q.methods)
    ensures var r := Build(env, q);
            r.Some? ==>
              && env.size(r.value) <= env.limit && |r.value.sources| <= MAX_SOURCES
              && (forall i, j | 0 <= i < j < |r.value.records| :: r.value.records[i] != r.value.records[j])
              && (forall id | id in r.value.records ::
                     id in env.versions && Source(id, env.versions[id]) in r.value.sources)
              && (forall i, j | 0 <= i < j < |r.value.sources| :: r.value.sources[i].id != r.value.sources[j].id)
              && (forall id | id in q.required :: id in r.value.records && Sendable(env, id))
  {
    GatherKeeps(env, q);
    var p := Gather(env, q);
    if p.Some? {
      forall i, j | 0 <= i < j < |p.value.package.sources|
        ensures p.value.package.sources[i].id != p.value.package.sources[j].id
      {
        assert Current(env, p.value.package.sources[i]) && Current(env, p.value.package.sources[j]);
      }
    }
  }

  /** The final check only ever refuses a package with nothing in it: if the
      empty package fits, it never fires. */
  lemma EnvelopeCheckFires(env: Env, q: Request)
    requires MethodsCurrent(env, q.methods)
    ensures Gather(env, q).Some? ==>
              (Build(env, q).None? <==>
                Gather(env, q).value.package == EMPTY.package && env.size(EMPTY.package) > env.limit)
  {
    GatherKeeps(env, q);
  }

  // The package in place.

  class Builder {
    const env: Env
    var records: seq<Id>
    var sources: seq<Source>
    var methods: seq<Method>
    var tools: seq<string>
    var seen: set<Id>

    constructor (env: Env)
      ensures this.env == env && Now() == EMPTY
    {
      this.env := env;
      records, sources, methods, tools, seen := [], [], [], [], {};
    }

    function Now(): Pack
      reads this
    {
      Pack(Package(records, sources, methods, tools), seen)
    }

    /** Pushed, measured, and popped again if too large. */
    method TryInclude(id: Id) returns (ok: bool, taken: bool)
      modifies this
      ensures ok <==> Include(env, old(Now()), id).Some?
      ensures if ok then Tried(Now(), taken) == Include(env, old(Now()), id).value else Now() == old(Now())
    {
      if id in seen {
        return true, true;
      }
      if |sources| >= MAX_SOURCES {
        return true, false;
      }
      if id !in env.versions {
        return false, false;
      }
      var source := Source(id, env.versions[id]);
      var added := source !in sources;
      if added {
        sources := sources + [source];
      }
      records := records + [id];
      if env.size(Now().package) > env.limit {
        records := records[..|records| - 1];
        if added {
          sources := sources[..|sources| - 1];
        }
        assert records == old(records) && sources == old(sources);
        return true, false;
      }
      seen := seen + {id};
      return true, true;
    }

    method AddAll(ids: seq<Id>) returns (ok: bool)
      modifies this
      ensures ok <==> IncludeAll(env, old(Now()), ids).Some?
      ensures ok ==> Now() == IncludeAll(env, old(Now()), ids).value
    {
      for i := 0 to |ids|
        invariant IncludeAll(env, old(Now()), ids) == IncludeAll(env, Now(), ids[i..])
      {
        assert ids[i..][0] == ids[i] && ids[i..][1..] == ids[i + 1..];
        var taken;
        ok, taken := TryInclude(ids[i]);
        if !ok {
          return;
        }
      }
      ok := true;
    }

    method AddRequired(ids: seq<Id>) returns (ok: bool)
      modifies this
      ensures ok <==> RequireAll(env, old(Now()), ids).Some?
      ensures ok ==> Now() == RequireAll(env, old(Now()), ids).value
    {
      for i := 0 to |ids|
        invariant RequireAll(env, old(Now()), ids) == RequireAll(env, Now(), ids[i..])
      {
        assert ids[i..][0] == ids[i] && ids[i..][1..] == ids[i + 1..];
        if !Sendable(env, ids[i]) {
          return false;
        }
        var taken;
        ok, taken := TryInclude(ids[i]);
        if !ok || !taken {
          return false;
        }
      }
      ok := true;
    }

    method PutTools(found: Option<seq<string>>)
      modifies this`tools
      ensures Now() == AddTools(env, old(Now()), found)
    {
      if found.Some? {
        tools := found.value;
        if env.size(Now().package) > env.limit {
          tools := [];
        }
      }
    }

    method PutMethod(m: Method)
      modifies this`sources, this`methods
      ensures Now() == AddMethod(env, old(Now()), m)
    {
      var combined := sources;
      for i := 0 to |m.sources|
        invariant Combined(sources, m.sources) == Combined(combined, m.sources[i..])
      {
        assert m.sources[i..][0] == m.sources[i] && m.sources[i..][1..] == m.sources[i + 1..];
        if m.sources[i] !in combined {
          combined := combined + [m.sources[i]];
        }
      }
      if |combined| > MAX_SOURCES {
        return;
      }
      var prior := sources;
      sources := combined;
      methods := methods + [m];
      if env.size(Now().package) > env.limit {
        methods := methods[..|methods| - 1];
        sources := prior;
        assert methods == old(methods);
      }
    }

    method PutMethods(found: seq<Method>)
      modifies this`sources, this`methods
      ensures Now() == AddMethods(env, old(Now()), found)
    {
      for i := 0 to |found|
        invariant AddMethods(env, old(Now()), found) == AddMethods(env, Now(), found[i..])
      {
        assert found[i..][0] == found[i] && found[i..][1..] == found[i + 1..];
        PutMethod(found[i]);
      }
    }

    method AddLists(lists: seq<seq<Id>>) returns (ok: bool)
      modifies this
      ensures ok <==> IncludeLists(env, old(Now()), lists).Some?
      ensures ok ==> Now() == IncludeLists(env, old(Now()), lists).value
    {
      for i := 0 to |lists|
        invariant IncludeLists(env, old(Now()), lists) == IncludeLists(env, Now(), lists[i..])
      {
        assert lists[i..][0] == lists[i] && lists[i..][1..] == lists[i + 1..];
        ok := AddAll(lists[i]);
        if !ok {
          return;
        }
      }
      ok := true;
    }

    method AddEarly(q: Request) returns (ok: bool)
      requires Now() == EMPTY
      modifies this
      ensures ok <==> Early(env, q).Some?
      ensures ok ==> Now() == Early(env, q).value
    {
      ok := AddRequired(q.required);
      if ok {
        ok := AddLists([Policies(env.store, q.recent), q.standing, Instructions(env.store, q.recent), q.guidance]);
      }
    }

    method AddLate(q: Request) returns (ok: bool)
      modifies this
      ensures ok <==> Late(env, old(Now()), q).Some?
      ensures ok ==> Now() == Late(env, old(Now()), q).value
    {
      ok := AddAll(q.due);
      if ok {
        ok := AddAll(Unlearned(env.store, q.general));
      }
      if ok {
        ok := AddAll(Links(env, Now()));
      }
      if ok {
        ok := AddAll(Unlearned(env.store, q.recent));
      }
    }

    method BuildPackage(q: Request) returns (r: Option<Package>)
      requires Now() == EMPTY
      modifies this
      ensures r == Build(env, q)
    {
      if !ValidRequest(q) {
        return None;
      }
      var ok := AddEarly(q);
      if !ok {
        return None;
      }
      PutTools(q.tools);
      PutMethods(q.methods);
      ok := AddLate(q);
      if !ok || env.size(Now().package) > env.limit {
        return None;
      }
      r := Some(Now().package);
    }
  }
}
