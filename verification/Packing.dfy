/** What a package leaves out does not fit, what is in it was found or required,
    and nothing found late displaces what goes first. */
module Packing {
  import opened Wrappers
  import opened Memory
  import opened Context

  /** Everything of one package is in the other. */
  predicate Within(a: Package, b: Package) {
    && multiset(a.records) <= multiset(b.records) && multiset(a.sources) <= multiset(b.sources)
    && multiset(a.methods) <= multiset(b.methods) && multiset(a.tools) <= multiset(b.tools)
  }

  /** A package with more in it is encoded no shorter. */
  ghost predicate Monotone(size: Package -> nat) {
    forall a, b | Within(a, b) :: size(a) <= size(b)
  }

  /** The package with one more record, and with its source if that is new. */
  function With(env: Env, p: Package, id: Id): Package
    requires id in env.versions
  {
    var source := Source(id, env.versions[id]);
    p.(records := p.records + [id], sources := if source in p.sources then p.sources else p.sources + [source])
  }

  /** The package has 64 sources, or would grow over its limit. */
  predicate NoRoom(env: Env, p: Package, id: Id) {
    |p.sources| >= MAX_SOURCES || (id in env.versions && env.size(With(env, p, id)) > env.limit)
  }

  predicate Settled(env: Env, p: Package, id: Id) { id in p.records || NoRoom(env, p, id) }

  lemma OneMore<T>(a: seq<T>, b: seq<T>, x: T)
    requires multiset(a) <= multiset(b) && x in b && x !in a
    ensures multiset(a + [x]) <= multiset(b)
  {
    assert x in multiset(b);
  }

  lemma NoLonger<T>(a: seq<T>, b: seq<T>)
    requires multiset(a) <= multiset(b)
    ensures |a| <= |b|
    ensures forall x | x in a :: x in b
  {
    assert multiset(b) == multiset(a) + (multiset(b) - multiset(a));
    forall x | x in a ensures x in b { assert x in multiset(a) && x in multiset(b); }
  }

  lemma WithMore(env: Env, a: Package, b: Package, id: Id)
    requires id in env.versions && Within(a, b)
    ensures Within(With(env, a, id), With(env, b, id))
  {
    var source := Source(id, env.versions[id]);
    NoLonger(a.sources, b.sources);
    if source in b.sources && source !in a.sources { OneMore(a.sources, b.sources, source); }
  }

  /** What did not fit still does not in a larger package. */
  lemma SettledStays(env: Env, a: Package, b: Package, id: Id)
    requires Monotone(env.size) && Within(a, b) && Settled(env, a, id)
    ensures Settled(env, b, id)
  {
    NoLonger(a.records, b.records);
    NoLonger(a.sources, b.sources);
    if id in env.versions { WithMore(env, a, b, id); }
  }

  lemma WithinTwice(a: Package, b: Package, c: Package)
    requires Within(a, b) && Within(b, c)
    ensures Within(a, c)
  {
  }

  // What each step leaves out.

  /** The package grew by records of the list alone, in front of which is all that
      was there. */
  ghost predicate Grown(p: Package, r: Package, ids: seq<Id>) {
    && Within(p, r) && p.records <= r.records && r.tools == p.tools && r.methods == p.methods
    && forall id | id in r.records :: id in p.records || id in ids
  }

  /** And nothing on the list was left out that fits. */
  ghost predicate Filled(env: Env, p: Pack, r: Pack, ids: seq<Id>) {
    Grown(p.package, r.package, ids) && forall id | id in ids :: Settled(env, r.package, id)
  }

  lemma WithGrows(env: Env, p: Package, id: Id)
    requires id in env.versions
    ensures Grown(p, With(env, p, id), [id]) && Grown(p, p, [id])
  {
  }

  /** A record is taken exactly if it is there already or fits. */
  lemma IncludeFits(env: Env, p: Pack, id: Id)
    requires Packed(env, p) && Include(env, p, id).Some?
    ensures var t := Include(env, p, id).value;
            && (t.taken <==> id in p.package.records || !NoRoom(env, p.package, id))
            && t.pack.package == (if t.taken && id !in p.package.records then With(env, p.package, id) else p.package)
            && (t.taken && id !in p.package.records ==> id in env.versions)
  {
  }

  lemma IncludeFills(env: Env, p: Pack, id: Id)
    requires Packed(env, p) && Include(env, p, id).Some?
    ensures Filled(env, p, Include(env, p, id).value.pack, [id])
  {
    IncludeFits(env, p, id);
    if id in env.versions { WithGrows(env, p.package, id); }
  }

  lemma GrownTwice(p: Package, q: Package, r: Package, a: seq<Id>, b: seq<Id>)
    requires Grown(p, q, a) && Grown(q, r, b)
    ensures Grown(p, r, a + b)
  {
  }

  lemma FilledTwice(env: Env, p: Pack, q: Pack, r: Pack, a: seq<Id>, b: seq<Id>)
    requires Monotone(env.size) && Filled(env, p, q, a) && Filled(env, q, r, b)
    ensures Filled(env, p, r, a + b)
  {
    GrownTwice(p.package, q.package, r.package, a, b);
    forall id | id in a ensures Settled(env, r.package, id) { SettledStays(env, q.package, r.package, id); }
  }

  /** One record and then the rest. */
  lemma FillsOn(env: Env, p: Pack, t: Pack, r: Pack, ids: seq<Id>)
    requires ids != [] && Monotone(env.size) && Filled(env, p, t, [ids[0]]) && Filled(env, t, r, ids[1..])
    ensures Filled(env, p, r, ids)
  {
    FilledTwice(env, p, t, r, [ids[0]], ids[1..]);
    assert ids == [ids[0]] + ids[1..];
  }

  lemma {:induction false} IncludeAllFills(env: Env, p: Pack, ids: seq<Id>)
    requires Packed(env, p) && Monotone(env.size)
    ensures var r := IncludeAll(env, p, ids); r.Some? ==> Packed(env, r.value) && Filled(env, p, r.value, ids)
    decreases |ids|
  {
    if ids == [] {
      FilledByNone(env, p);
    } else if IncludeAll(env, p, ids).Some? {
      IncludeFills(env, p, ids[0]);
      IncludeKeeps(env, p, ids[0]);
      var t := Include(env, p, ids[0]).value.pack;
      IncludeAllFills(env, t, ids[1..]);
      FillsOn(env, p, t, IncludeAll(env, p, ids).value, ids);
    }
  }

  lemma FilledByNone(env: Env, p: Pack)
    ensures Filled(env, p, p, [])
  {
  }

  lemma GrowsOn(p: Package, q: Package, r: Package, ids: seq<Id>)
    requires ids != [] && Grown(p, q, [ids[0]]) && Grown(q, r, ids[1..])
    ensures Grown(p, r, ids)
  {
    GrownTwice(p, q, r, [ids[0]], ids[1..]);
    assert ids == [ids[0]] + ids[1..];
  }

  lemma {:induction false} RequireAllGrows(env: Env, p: Pack, ids: seq<Id>)
    requires Packed(env, p)
    ensures var r := RequireAll(env, p, ids);
            r.Some? ==> Packed(env, r.value) && Grown(p.package, r.value.package, ids)
    decreases |ids|
  {
    if ids != [] && RequireAll(env, p, ids).Some? {
      IncludeFills(env, p, ids[0]);
      IncludeKeeps(env, p, ids[0]);
      var t := Include(env, p, ids[0]).value.pack;
      RequireAllGrows(env, t, ids[1..]);
      GrowsOn(p.package, t.package, RequireAll(env, p, ids).value.package, ids);
    }
  }

  function Flat(lists: seq<seq<Id>>): seq<Id> { if lists == [] then [] else lists[0] + Flat(lists[1..]) }

  lemma {:induction false} ListsFill(env: Env, p: Pack, lists: seq<seq<Id>>)
    requires Packed(env, p) && Monotone(env.size)
    ensures var r := IncludeLists(env, p, lists);
            r.Some? ==> Packed(env, r.value) && Filled(env, p, r.value, Flat(lists))
    decreases |lists|
  {
    if lists != [] && IncludeLists(env, p, lists).Some? {
      IncludeAllFills(env, p, lists[0]);
      var q := IncludeAll(env, p, lists[0]).value;
      ListsFill(env, q, lists[1..]);
      FilledTwice(env, p, q, IncludeLists(env, q, lists[1..]).value, lists[0], Flat(lists[1..]));
    }
  }

  lemma ToolsGrow(env: Env, p: Pack, tools: Option<seq<string>>)
    requires p.package.tools == []
    ensures var r := AddTools(env, p, tools);
            && Within(p.package, r.package) && r.package.records == p.package.records
            && r.package.sources == p.package.sources && r.package.methods == p.package.methods
            && (tools.Some? ==>
                  r.package.tools == tools.value || env.size(r.package.(tools := tools.value)) > env.limit)
  {
    if tools.Some? { assert p.package.(tools := []).(tools := tools.value) == p.package.(tools := tools.value); }
  }

  lemma {:induction false} CombinedGrows(sources: seq<Source>, more: seq<Source>)
    ensures sources <= Combined(sources, more)
    decreases |more|
  {
    if more != [] {
      CombinedGrows(if more[0] in sources then sources else sources + [more[0]], more[1..]);
    }
  }

  /** The package with a method and whatever of its sources is new. */
  function WithMethod(p: Package, m: Method): Package {
    p.(sources := Combined(p.sources, m.sources), methods := p.methods + [m])
  }

  predicate MethodSettled(env: Env, p: Package, m: Method) {
    || m in p.methods || |WithMethod(p, m).sources| > MAX_SOURCES || env.size(WithMethod(p, m)) > env.limit
  }

  lemma {:induction false} DistinctOnce<T>(a: seq<T>, x: T)
    requires forall i, j | 0 <= i < j < |a| :: a[i] != a[j]
    ensures multiset(a)[x] <= 1
    decreases |a|
  {
    if a != [] {
      assert a == [a[0]] + a[1..];
      DistinctOnce(a[1..], x);
      assert a[0] !in a[1..];
    }
  }

  lemma DistinctIsWithin<T>(a: seq<T>, b: seq<T>)
    requires (forall i, j | 0 <= i < j < |a| :: a[i] != a[j]) && forall x | x in a :: x in b
    ensures multiset(a) <= multiset(b)
  {
    forall x ensures multiset(a)[x] <= multiset(b)[x] {
      DistinctOnce(a, x);
      if x in multiset(a) { assert x in a && x in multiset(b); }
    }
  }

  lemma MethodSettledStays(env: Env, p: Pack, q: Pack, m: Method)
    requires Packed(env, p) && Packed(env, q) && (forall s | s in m.sources :: Current(env, s)) && Monotone(env.size)
    requires Within(p.package, q.package) && MethodSettled(env, p.package, m)
    ensures MethodSettled(env, q.package, m)
  {
    NoLonger(p.package.methods, q.package.methods);
    NoLonger(p.package.sources, q.package.sources);
    CombinedIsUnion(env, p.package.sources, m.sources);
    CombinedIsUnion(env, q.package.sources, m.sources);
    var a, b := WithMethod(p.package, m), WithMethod(q.package, m);
    DistinctIsWithin(a.sources, b.sources);
    NoLonger(a.sources, b.sources);
    assert Within(a, b);
  }

  /** Every method is in, or did not fit; none but these came in. */
  ghost predicate MethodsFilled(env: Env, p: Package, r: Package, methods: seq<Method>) {
    && Within(p, r) && r.records == p.records && r.tools == p.tools
    && (forall m | m in methods :: MethodSettled(env, r, m))
    && (forall m | m in r.methods :: m in p.methods || m in methods)
  }

  lemma AddMethodSettles(env: Env, p: Pack, m: Method)
    ensures var r := AddMethod(env, p, m);
            MethodsFilled(env, p.package, r.package, [m])
  {
    CombinedGrows(p.package.sources, m.sources);
    PrefixIsWithin(p.package.sources, Combined(p.package.sources, m.sources));
    assert m in (p.package.methods + [m]);
  }

  lemma MethodsFillOn(env: Env, p: Pack, q: Pack, r: Pack, methods: seq<Method>)
    requires Packed(env, q) && Packed(env, r) && MethodsCurrent(env, methods) && Monotone(env.size) && methods != []
    requires MethodsFilled(env, p.package, q.package, [methods[0]])
    requires MethodsFilled(env, q.package, r.package, methods[1..])
    ensures MethodsFilled(env, p.package, r.package, methods)
  {
    WithinTwice(p.package, q.package, r.package);
    assert methods[0] in [methods[0]];
    MethodSettledStays(env, q, r, methods[0]);
    assert methods == [methods[0]] + methods[1..];
  }

  lemma {:induction false} MethodsFill(env: Env, p: Pack, methods: seq<Method>)
    requires Packed(env, p) && MethodsCurrent(env, methods) && Monotone(env.size)
    ensures var r := AddMethods(env, p, methods);
            Packed(env, r) && MethodsFilled(env, p.package, r.package, methods)
    decreases |methods|
  {
    if methods != [] {
      AddMethodSettles(env, p, methods[0]);
      AddMethodKeeps(env, p, methods[0]);
      var next := AddMethod(env, p, methods[0]);
      MethodsFill(env, next, methods[1..]);
      MethodsFillOn(env, p, next, AddMethods(env, p, methods), methods);
    }
  }

  lemma PrefixIsWithin<T>(a: seq<T>, b: seq<T>)
    requires a <= b
    ensures multiset(a) <= multiset(b)
  {
    assert b == a + b[|a|..];
  }

  // The two halves of a package.

  function First(env: Env, q: Request): seq<seq<Id>> {
    [Policies(env.store, q.recent), q.standing, Instructions(env.store, q.recent), q.guidance]
  }

  /** What goes in before tools and methods. */
  lemma EarlyFills(env: Env, q: Request)
    requires Monotone(env.size)
    ensures var r := Early(env, q);
            r.Some? ==>
              && Packed(env, r.value) && r.value.package.tools == [] && r.value.package.methods == []
              && (forall id | id in r.value.package.records :: id in q.required || id in Flat(First(env, q)))
              && (forall id | id in Flat(First(env, q)) :: Settled(env, r.value.package, id))
  {
    RequireAllGrows(env, EMPTY, q.required);
    var required := RequireAll(env, EMPTY, q.required);
    if required.Some? { ListsFill(env, required.value, First(env, q)); }
  }

  function After(env: Env, q: Request, found: Pack): seq<Id> {
    q.due + Unlearned(env.store, q.general) + Links(env, found) + Unlearned(env.store, q.recent)
  }

  /** What goes in after them, with the links of what is there by then. */
  lemma LateFills(env: Env, p: Pack, q: Request) returns (found: Pack)
    requires Packed(env, p) && Monotone(env.size) && Late(env, p, q).Some?
    ensures var r := Late(env, p, q).value;
            Packed(env, r) && Filled(env, p, r, After(env, q, found)) && found.package.records <= r.package.records
  {
    IncludeAllFills(env, p, q.due);
    var due := IncludeAll(env, p, q.due).value;
    IncludeAllFills(env, due, Unlearned(env.store, q.general));
    found := IncludeAll(env, due, Unlearned(env.store, q.general)).value;
    IncludeAllFills(env, found, Links(env, found));
    var linked := IncludeAll(env, found, Links(env, found)).value;
    IncludeAllFills(env, linked, Unlearned(env.store, q.recent));
    var r := Late(env, p, q).value;
    FilledTwice(env, p, due, found, q.due, Unlearned(env.store, q.general));
    FilledTwice(env, p, found, linked, q.due + Unlearned(env.store, q.general), Links(env, found));
    FilledTwice(env, p, linked, r, q.due + Unlearned(env.store, q.general) + Links(env, found),
      Unlearned(env.store, q.recent));
  }

  // Selections.

  lemma {:induction false} SelectIsFilter(s: Store, ids: seq<Id>, wanted: Record -> bool)
    ensures forall id :: id in Select(s, ids, wanted) <==> id in ids && id < |s| && wanted(s[id])
    decreases |ids|
  {
    if ids != [] {
      SelectIsFilter(s, ids[1..], wanted);
      assert ids == [ids[0]] + ids[1..];
    }
  }

  lemma {:induction false} LinkedComesFrom(s: Store, records: seq<Id>, id: Id)
    requires id in Linked(s, records)
    ensures exists r :: r in records && r < |s| && id in s[r].dependencies
    decreases |records|
  {
    if records[0] < |s| && id in s[records[0]].dependencies {
      assert records[0] in records;
    } else {
      LinkedComesFrom(s, records[1..], id);
      var r :| r in records[1..] && r < |s| && id in s[r].dependencies;
      assert r in records;
    }
  }

  // The results.

  const Instructs: Record -> bool := (r: Record) => r.kind.UserInstruction? || r.kind.Correction?

  /** An instruction or correction with fewer than eight before it among the
      recent records. */
  ghost predicate FirstInstruction(env: Env, q: Request, id: Id) {
    && id < |env.store| && (env.store[id].kind.UserInstruction? || env.store[id].kind.Correction?)
    && exists i :: 0 <= i < |q.recent| && q.recent[i] == id && |Wanted(env.store, q.recent[..i], Instructs)| < 8
  }

  /** A record the queries gave, by the list it came on. */
  ghost predicate GoesFirst(env: Env, q: Request, id: Id) {
    || id in q.standing || id in q.guidance
    || (id in q.recent && id < |env.store| && env.store[id].protectedPolicy)
    || FirstInstruction(env, q, id)
  }

  predicate GoesLater(env: Env, q: Request, id: Id) {
    || id in q.due
    || ((id in q.general || id in q.recent) && id < |env.store| && !env.store[id].kind.InferredPreference?)
  }

  /** An exact source of a record that is packed. */
  predicate LinkedFrom(env: Env, records: seq<Id>, id: Id) {
    && id < |env.store| && env.store[id].scope.Permits(env.scope)
    && !env.store[id].kind.Draft? && !env.store[id].kind.InferredPreference?
    && exists r :: r in records && r < |env.store| && id in env.store[r].dependencies
  }

  lemma FlatFirst(env: Env, q: Request)
    ensures Flat(First(env, q))
            == Policies(env.store, q.recent) + (q.standing + (Instructions(env.store, q.recent) + q.guidance))
  {
    var lists := First(env, q);
    assert lists[1..][1..] == lists[2..] && lists[2..][1..] == lists[3..] && lists[3..] == [q.guidance];
    assert Flat(lists[3..]) == q.guidance;
    assert Flat(lists[2..]) == Instructions(env.store, q.recent) + q.guidance;
    assert Flat(lists[1..]) == q.standing + (Instructions(env.store, q.recent) + q.guidance);
  }

  lemma SelectedFirst(env: Env, q: Request, id: Id)
    ensures GoesFirst(env, q, id) ==> id in Flat(First(env, q))
    ensures id in Flat(First(env, q)) ==>
              GoesFirst(env, q, id)
              || (id in q.recent && id < |env.store|
                  && (env.store[id].kind.UserInstruction? || env.store[id].kind.Correction?))
  {
    FlatFirst(env, q);
    SelectIsFilter(env.store, q.recent, (r: Record) => r.protectedPolicy);
    SelectIsFilter(env.store, q.recent, Instructs);
    if id in Instructions(env.store, q.recent) { assert id in Select(env.store, q.recent, Instructs); }
    if FirstInstruction(env, q, id) { FirstAreTaken(env, q, id); }
  }

  lemma {:induction false} SelectSplit(s: Store, a: seq<Id>, b: seq<Id>, wanted: Record -> bool)
    ensures Select(s, a + b, wanted) == Select(s, a, wanted) + Select(s, b, wanted)
    decreases |a|
  {
    if a == [] {
      assert a + b == b;
    } else {
      assert (a + b)[1..] == a[1..] + b;
      SelectSplit(s, a[1..], b, wanted);
    }
  }

  function Wanted(s: Store, ids: seq<Id>, wanted: Record -> bool): set<nat> {
    set k: nat | k < |ids| && ids[k] < |s| && wanted(s[ids[k]])
  }

  lemma {:induction false} SelectCounts(s: Store, ids: seq<Id>, wanted: Record -> bool)
    ensures |Select(s, ids, wanted)| == |Wanted(s, ids, wanted)|
    decreases |ids|
  {
    if ids != [] {
      var n := |ids| - 1;
      SelectCounts(s, ids[..n], wanted);
      SelectSplit(s, ids[..n], [ids[n]], wanted);
      assert ids == ids[..n] + [ids[n]];
      var last: set<nat> := if ids[n] < |s| && wanted(s[ids[n]]) then {n} else {};
      assert Wanted(s, ids, wanted) == Wanted(s, ids[..n], wanted) + last;
      assert Select(s, [ids[n]], wanted) == if ids[n] < |s| && wanted(s[ids[n]]) then [ids[n]] else [];
    }
  }

  lemma FirstAreTaken(env: Env, q: Request, id: Id)
    requires FirstInstruction(env, q, id)
    ensures id in Instructions(env.store, q.recent)
  {
    var i :| 0 <= i < |q.recent| && q.recent[i] == id && |Wanted(env.store, q.recent[..i], Instructs)| < 8;
    assert q.recent == q.recent[..i] + ([id] + q.recent[i + 1..]);
    SelectSplit(env.store, q.recent[..i], [id] + q.recent[i + 1..], Instructs);
    SelectCounts(env.store, q.recent[..i], Instructs);
    var before, all := Select(env.store, q.recent[..i], Instructs), Select(env.store, q.recent, Instructs);
    assert all[|before|] == id;
    assert Take(all, RECENT_INSTRUCTIONS)[|before|] == id;
  }

  lemma SelectedLater(env: Env, q: Request, found: Pack, id: Id)
    ensures GoesLater(env, q, id) ==> id in After(env, q, found)
    ensures id in After(env, q, found) ==> GoesLater(env, q, id) || LinkedFrom(env, found.package.records, id)
  {
    SelectIsFilter(env.store, q.general, (r: Record) => !r.kind.InferredPreference?);
    SelectIsFilter(env.store, q.recent, (r: Record) => !r.kind.InferredPreference?);
    var linked := Take(Linked(env.store, found.package.records), MAX_SOURCES);
    SelectIsFilter(env.store, linked,
      (r: Record) => r.scope.Permits(env.scope) && !r.kind.Draft? && !r.kind.InferredPreference?);
    if id in Links(env, found) {
      assert id in Linked(env.store, found.package.records);
      LinkedComesFrom(env.store, found.package.records, id);
    }
  }

  /** The part of a package that goes in before tools and methods. */
  ghost predicate FirstPart(env: Env, q: Request, early: Package) {
    && early.tools == [] && early.methods == []
    && (forall id | id in early.records :: id in q.required || id in Flat(First(env, q)))
    && forall id | id in Flat(First(env, q)) :: Settled(env, early, id)
  }

  /** How it grew from there to a whole. */
  ghost predicate Completed(env: Env, q: Request, early: Package, found: Pack, r: Package) {
    && Within(early, r) && early.records <= r.records && found.package.records <= r.records
    && (forall id | id in r.records :: id in early.records || id in After(env, q, found))
    && forall id | id in After(env, q, found) :: Settled(env, r, id)
  }

  /** What became of the tools and methods on the way. */
  ghost predicate Adapted(env: Env, q: Request, r: Package) {
    && (q.tools.Some? ==> r.tools == q.tools.value || env.size(r.(tools := q.tools.value)) > env.limit)
    && (q.tools.None? ==> r.tools == [])
    && (forall m | m in q.methods :: MethodSettled(env, r, m)) && forall m | m in r.methods :: m in q.methods
  }

  lemma AdaptFills(env: Env, p: Pack, q: Request)
    requires Packed(env, p) && p.package.tools == [] && p.package.methods == []
    requires MethodsCurrent(env, q.methods) && Monotone(env.size)
    ensures var r := Adapt(env, p, q);
            && Packed(env, r) && Within(p.package, r.package) && r.package.records == p.package.records
            && Adapted(env, q, r.package)
  {
    ToolsGrow(env, p, q.tools);
    var tooled := AddTools(env, p, q.tools);
    AddToolsKeeps(env, p, q.tools);
    MethodsFill(env, tooled, q.methods);
    var r := Adapt(env, p, q);
    WithinTwice(p.package, tooled.package, r.package);
    if q.tools.Some? && r.package.tools != q.tools.value {
      assert Within(tooled.package.(tools := q.tools.value), r.package.(tools := q.tools.value));
    }
  }

  lemma AdaptedStays(env: Env, q: Request, p: Pack, r: Pack)
    requires Packed(env, p) && Packed(env, r) && MethodsCurrent(env, q.methods) && Monotone(env.size)
    requires Within(p.package, r.package) && Adapted(env, q, p.package)
    requires r.package.tools == p.package.tools && r.package.methods == p.package.methods
    ensures Adapted(env, q, r.package)
  {
    if q.tools.Some? && r.package.tools != q.tools.value {
      assert Within(p.package.(tools := q.tools.value), r.package.(tools := q.tools.value));
    }
    forall m | m in q.methods ensures MethodSettled(env, r.package, m) { MethodSettledStays(env, p, r, m); }
  }

  lemma LateCompletes(env: Env, q: Request, early: Pack) returns (found: Pack)
    requires Packed(env, early) && early.package.tools == [] && early.package.methods == []
    requires MethodsCurrent(env, q.methods) && Monotone(env.size)
    requires Late(env, Adapt(env, early, q), q).Some?
    ensures var r := Late(env, Adapt(env, early, q), q).value.package;
            Completed(env, q, early.package, found, r) && Adapted(env, q, r)
  {
    AdaptFills(env, early, q);
    var adapted := Adapt(env, early, q);
    found := LateFills(env, adapted, q);
    WithinTwice(early.package, adapted.package, Late(env, adapted, q).value.package);
    AdaptedStays(env, q, adapted, Late(env, adapted, q).value);
  }

  lemma Halves(env: Env, q: Request) returns (early: Pack, found: Pack)
    requires MethodsCurrent(env, q.methods) && Monotone(env.size) && Build(env, q).Some?
    ensures FirstPart(env, q, early.package) && Completed(env, q, early.package, found, Build(env, q).value)
    ensures Adapted(env, q, Build(env, q).value)
  {
    EarlyFills(env, q);
    early := Early(env, q).value;
    found := LateCompletes(env, q, early);
  }

  /** Whatever the queries gave, what a built package leaves out does not fit in
      it: with the record it would have more than 64 sources or exceed its limit.
      Any encoding will do that is no shorter for a package with more in it. */
  lemma LeftOutDoesNotFit(env: Env, q: Request, id: Id)
    requires MethodsCurrent(env, q.methods) && Monotone(env.size) && Build(env, q).Some?
    requires GoesFirst(env, q, id) || GoesLater(env, q, id)
    ensures var r := Build(env, q).value;
            id in r.records || |r.sources| >= 64 || (id in env.versions && env.size(With(env, r, id)) > env.limit)
  {
    var early, found := Halves(env, q);
    SelectedFirst(env, q, id);
    SelectedLater(env, q, found, id);
    if id in Flat(First(env, q)) { SettledStays(env, early.package, Build(env, q).value, id); }
  }

  /** Nor do the tools, which go in all or none, or a method: with it there would
      be more than 64 sources or too many bytes. No others are put in. */
  lemma ToolsAndMethodsDoNotFit(env: Env, q: Request, m: Method)
    requires MethodsCurrent(env, q.methods) && Monotone(env.size) && Build(env, q).Some?
    ensures var r := Build(env, q).value;
            && (q.tools.Some? ==> r.tools == q.tools.value || env.size(r.(tools := q.tools.value)) > env.limit)
            && (q.tools.None? ==> r.tools == [])
            && (m in r.methods ==> m in q.methods)
            && (m in q.methods && m !in r.methods ==>
                  || |WithMethod(r, m).sources| > 64 || env.size(WithMethod(r, m)) > env.limit)
  {
    var early, found := Halves(env, q);
    assert m in q.methods ==> MethodSettled(env, Build(env, q).value, m);
  }

  /** Policy, standing guidance, the eight latest instructions and applicable
      guidance are not displaced by what goes in later. A package starts with an
      early part, without tools or methods, in which there is nothing but them and
      what is required; and one of them is left out only if it did not even fit in
      that. */
  lemma EarlyIsNotDisplaced(env: Env, q: Request, id: Id) returns (early: Package)
    requires MethodsCurrent(env, q.methods) && Monotone(env.size) && Build(env, q).Some?
    ensures var r := Build(env, q).value;
            && early.records <= r.records && early.tools == [] && early.methods == []
            && (forall x | x in early.records ::
                  || x in q.required || GoesFirst(env, q, x)
                  || (x in q.recent && x < |env.store|
                      && (env.store[x].kind.UserInstruction? || env.store[x].kind.Correction?)))
            && (GoesFirst(env, q, id) && id !in r.records ==>
                  |early.sources| >= 64 || (id in env.versions && env.size(With(env, early, id)) > env.limit))
  {
    var pack, found := Halves(env, q);
    early := pack.package;
    SelectedFirst(env, q, id);
    forall x | x in early.records { SelectedFirst(env, q, x); }
  }

  /** Nothing is in a package but what was required, what the queries gave and
      exact sources of what is in it. What was learned is there only if it was
      required, applies as guidance, or is due, standing or policy. */
  lemma OnlyWhatWasFound(env: Env, q: Request, id: Id)
    requires MethodsCurrent(env, q.methods) && Monotone(env.size) && Build(env, q).Some?
    requires id in Build(env, q).value.records
    ensures var r := Build(env, q).value;
            || id in q.required || GoesFirst(env, q, id) || GoesLater(env, q, id) || LinkedFrom(env, r.records, id)
    ensures id < |env.store| && env.store[id].kind.InferredPreference? ==>
              || id in q.required || id in q.guidance || id in q.due || id in q.standing
              || (id in q.recent && env.store[id].protectedPolicy)
  {
    var early, found := Halves(env, q);
    SelectedFirst(env, q, id);
    SelectedLater(env, q, found, id);
    if LinkedFrom(env, found.package.records, id) {
      var source :| source in found.package.records && source < |env.store| && id in env.store[source].dependencies;
      assert source in Build(env, q).value.records;
    }
  }

  // When a package is built.

  /** The package with these records, each once, and their sources. */
  function All(env: Env, p: Package, ids: seq<Id>): Package
    requires forall id | id in ids :: id in env.versions
    decreases |ids|
  {
    if ids == [] then p else All(env, if ids[0] in p.records then p else With(env, p, ids[0]), ids[1..])
  }

  /** Whatever the request can name has a version. */
  ghost predicate Versioned(env: Env, q: Request) {
    forall id :: id in env.versions
      <== id < |env.store| || id in q.required || id in q.standing || id in q.guidance || id in q.due
  }

  lemma {:induction false} AllGrows(env: Env, p: Package, ids: seq<Id>)
    requires forall id | id in ids :: id in env.versions
    ensures Within(p, All(env, p, ids)) && |All(env, p, ids).sources| <= |p.sources| + |ids|
    decreases |ids|
  {
    if ids != [] {
      WithGrows(env, p, ids[0]);
      var next := if ids[0] in p.records then p else With(env, p, ids[0]);
      AllGrows(env, next, ids[1..]);
      WithinTwice(p, next, All(env, p, ids));
    }
  }

  /** What is required is taken exactly if all of it is sendable and fits. */
  lemma {:induction false} RequiredTaken(env: Env, p: Pack, ids: seq<Id>)
    requires Packed(env, p) && Monotone(env.size) && forall id | id in ids :: id in env.versions
    requires env.size(p.package) <= env.limit && |p.package.sources| + |ids| <= MAX_SOURCES
    ensures RequireAll(env, p, ids).Some? <==>
              && (forall id | id in ids :: Sendable(env, id)) && env.size(All(env, p.package, ids)) <= env.limit
    ensures RequireAll(env, p, ids).Some? ==> RequireAll(env, p, ids).value.package == All(env, p.package, ids)
    decreases |ids|
  {
    if ids != [] {
      assert ids == [ids[0]] + ids[1..];
      IncludeFits(env, p, ids[0]);
      IncludeKeeps(env, p, ids[0]);
      var next := if ids[0] in p.package.records then p.package else With(env, p.package, ids[0]);
      AllGrows(env, next, ids[1..]);
      if Include(env, p, ids[0]).value.taken { RequiredTaken(env, Include(env, p, ids[0]).value.pack, ids[1..]); }
    }
  }

  lemma {:induction false} IncludesAll(env: Env, p: Pack, ids: seq<Id>)
    requires forall id | id in ids :: id in env.versions
    ensures IncludeAll(env, p, ids).Some?
    decreases |ids|
  {
    if ids != [] { IncludesAll(env, Include(env, p, ids[0]).value.pack, ids[1..]); }
  }

  lemma {:induction false} IncludesLists(env: Env, p: Pack, lists: seq<seq<Id>>)
    requires forall id | id in Flat(lists) :: id in env.versions
    ensures IncludeLists(env, p, lists).Some?
    decreases |lists|
  {
    if lists != [] {
      IncludesAll(env, p, lists[0]);
      IncludesLists(env, IncludeAll(env, p, lists[0]).value, lists[1..]);
    }
  }

  lemma FirstVersioned(env: Env, q: Request)
    requires Versioned(env, q)
    ensures forall id | id in Flat(First(env, q)) :: id in env.versions
  {
    forall id | id in Flat(First(env, q)) ensures id in env.versions { SelectedFirst(env, q, id); }
  }

  lemma LateIncludes(env: Env, p: Pack, q: Request)
    requires Versioned(env, q)
    ensures Late(env, p, q).Some?
  {
    SelectIsFilter(env.store, q.general, (r: Record) => !r.kind.InferredPreference?);
    SelectIsFilter(env.store, q.recent, (r: Record) => !r.kind.InferredPreference?);
    IncludesAll(env, p, q.due);
    var due := IncludeAll(env, p, q.due).value;
    IncludesAll(env, due, Unlearned(env.store, q.general));
    var found := IncludeAll(env, due, Unlearned(env.store, q.general)).value;
    forall id | id in Links(env, found) ensures id in env.versions {
      SelectIsFilter(env.store, Take(Linked(env.store, found.package.records), MAX_SOURCES),
        (r: Record) => r.scope.Permits(env.scope) && !r.kind.Draft? && !r.kind.InferredPreference?);
    }
    IncludesAll(env, found, Links(env, found));
    IncludesAll(env, IncludeAll(env, found, Links(env, found)).value, Unlearned(env.store, q.recent));
  }

  lemma EarlyExactlyWhen(env: Env, q: Request)
    requires Monotone(env.size) && Versioned(env, q) && |q.required| <= MAX_SOURCES
    requires env.size(EMPTY.package) <= env.limit
    ensures Early(env, q).Some? <==>
              && (forall id | id in q.required :: Sendable(env, id))
              && env.size(All(env, EMPTY.package, q.required)) <= env.limit
  {
    RequiredTaken(env, EMPTY, q.required);
    if RequireAll(env, EMPTY, q.required).Some? {
      FirstVersioned(env, q);
      IncludesLists(env, RequireAll(env, EMPTY, q.required).value, First(env, q));
    }
  }

  /** Where every record has a version, a package is built exactly when the
      request is within its bounds, every required record is there, may be sent to
      the destination and is no draft, and all of them together fit. Nothing else
      the queries give can make it fail. */
  lemma BuiltExactlyWhen(env: Env, q: Request)
    requires MethodsCurrent(env, q.methods) && Monotone(env.size) && Versioned(env, q)
    ensures Build(env, q).Some? <==>
              && |q.queries| <= 4 && (forall i | 0 <= i < |q.queries| :: |q.queries[i]| <= 4096) && |q.required| <= 64
              && (forall id | id in q.required ::
                    id < |env.store| && env.store[id].scope.Permits(env.scope) && !env.store[id].kind.Draft?)
              && env.size(All(env, EMPTY.package, q.required)) <= env.limit
  {
    AllGrows(env, EMPTY.package, q.required);
    GatherKeeps(env, q);
    if env.size(EMPTY.package) <= env.limit {
      if |q.required| <= MAX_SOURCES { EarlyExactlyWhen(env, q); }
      if Early(env, q).Some? { LateIncludes(env, Adapt(env, Early(env, q).value, q), q); }
    } else if Build(env, q).Some? {
      EmptyIsWithin(Build(env, q).value);
    }
  }

  lemma EmptyIsWithin(p: Package)
    ensures Within(EMPTY.package, p)
  {
  }
}
