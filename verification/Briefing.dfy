/** Loading a briefing: typed pages with their own quotas, under one bound on
    records and one on bytes, with what was left out disclosed. */
module Briefing {
  import opened Wrappers
  import opened Memory
  import opened Lineage

  const MAX_BYTES: nat := 256 * 1024
  const MAX_DUE: nat := 64

  /** The typed pages, in the order they are read. */
  const KINDS: seq<Kind> := [Decision, UserInstruction, Correction, Proposal, InferredPreference, Finding, Briefing]

  /** Due commitments use up the decisions' quota. */
  function Quota(kind: Kind, due: nat): nat {
    match kind
    case Decision => if due < 64 then 64 - due else 0
    case UserInstruction | Correction | Briefing => 32
    case Proposal | InferredPreference => 24
    case Finding => 48
    case _ => 0
  }

  // One page of a query's rows.

  datatype Page = Page(records: seq<Id>, bytes: nat, limited: bool, byteLimited: bool)

  function PageStep(p: Page, row: Id, cap: nat, size: Id -> nat): Page {
    if p.bytes + size(row) > MAX_BYTES then p.(limited := true, byteLimited := true)
    else if |p.records| == cap then p.(limited := true)
    else p.(records := p.records + [row], bytes := p.bytes + size(row))
  }

  function PageOf(p: Page, rows: seq<Id>, cap: nat, size: Id -> nat): Page
    decreases |rows|
  {
    if rows == [] then p else PageOf(PageStep(p, rows[0], cap, size), rows[1..], cap, size)
  }

  const EMPTY_PAGE := Page([], 0, false, false)

  method ReadPage(rows: seq<Id>, cap: nat, size: Id -> nat) returns (page: Page)
    ensures page == PageOf(EMPTY_PAGE, rows, cap, size)
  {
    page := EMPTY_PAGE;
    for i := 0 to |rows|
      invariant PageOf(EMPTY_PAGE, rows, cap, size) == PageOf(page, rows[i..], cap, size)
    {
      assert rows[i..][0] == rows[i] && rows[i..][1..] == rows[i + 1..];
      if page.bytes + size(rows[i]) > MAX_BYTES {
        page := page.(limited := true, byteLimited := true);
        continue;
      }
      if |page.records| == cap {
        page := page.(limited := true);
        continue;
      }
      page := page.(records := page.records + [rows[i]], bytes := page.bytes + size(rows[i]));
    }
  }

  // All pages together.

  datatype Load = Load(records: seq<Id>, bytes: nat, byteLimited: bool, limitedKinds: seq<Kind>)

  function PackStep(l: Load, row: Id, size: Id -> nat): Load {
    if l.bytes + size(row) > MAX_BYTES then l.(byteLimited := true)
    else l.(records := l.records + [row], bytes := l.bytes + size(row))
  }

  function Pack(l: Load, rows: seq<Id>, size: Id -> nat): Load
    decreases |rows|
  {
    if rows == [] then l else Pack(PackStep(l, rows[0], size), rows[1..], size)
  }

  method AppendBounded(l: Load, rows: seq<Id>, size: Id -> nat) returns (r: Load)
    ensures r == Pack(l, rows, size)
  {
    r := l;
    for i := 0 to |rows|
      invariant Pack(l, rows, size) == Pack(r, rows[i..], size)
    {
      assert rows[i..][0] == rows[i] && rows[i..][1..] == rows[i + 1..];
      if r.bytes + size(rows[i]) > MAX_BYTES {
        r := r.(byteLimited := true);
      } else {
        r := r.(records := r.records + [rows[i]], bytes := r.bytes + size(rows[i]));
      }
    }
  }

  function Without(rows: seq<Id>, due: seq<Id>): seq<Id> {
    if rows == [] then [] else (if rows[0] in due then [] else [rows[0]]) + Without(rows[1..], due)
  }

  function LoadKind(l: Load, kind: Kind, rows: seq<Id>, due: seq<Id>, size: Id -> nat): Load {
    var page := PageOf(EMPTY_PAGE, rows, Quota(kind, |due|), size);
    var l1 :=
      l.(byteLimited := l.byteLimited || page.byteLimited,
      limitedKinds := if page.limited then l.limitedKinds + [kind] else l.limitedKinds);
    Pack(l1, Without(page.records, due), size)
  }

  function LoadKinds(l: Load, i: nat, rows: seq<seq<Id>>, due: seq<Id>, size: Id -> nat): Load
    requires i <= |rows| == |KINDS|
    decreases |KINDS| - i
  {
    if i == |KINDS| then l else LoadKinds(LoadKind(l, KINDS[i], rows[i], due, size), i + 1, rows, due, size)
  }

  function LoadDue(due: seq<Id>, size: Id -> nat): Load {
    Pack(Load([], 0, false, if |due| == MAX_DUE then [Decision] else []), due, size)
  }

  function Loaded(due: seq<Id>, rows: seq<seq<Id>>, size: Id -> nat): Load
    requires |rows| == |KINDS|
  {
    LoadKinds(LoadDue(due, size), 0, rows, due, size)
  }

  /** `due` and `rows` are what the queries return, `size` a record's bytes. */
  method LoadAt(due: seq<Id>, rows: seq<seq<Id>>, size: Id -> nat) returns (l: Load)
    requires |rows| == |KINDS|
    ensures l == Loaded(due, rows, size)
  {
    l := AppendBounded(Load([], 0, false, if |due| == MAX_DUE then [Decision] else []), due, size);
    for i := 0 to |KINDS|
      invariant Loaded(due, rows, size) == LoadKinds(l, i, rows, due, size)
    {
      var page := ReadPage(rows[i], Quota(KINDS[i], |due|), size);
      l := l.(byteLimited := l.byteLimited || page.byteLimited);
      if page.limited {
        l := l.(limitedKinds := l.limitedKinds + [KINDS[i]]);
      }
      l := AppendBounded(l, Without(page.records, due), size);
    }
  }

  // What queries return.

  ghost predicate Distinct(ids: seq<Id>) { forall i, j | 0 <= i < j < |ids| :: ids[i] != ids[j] }

  ghost predicate OfKind(s: Store, ids: seq<Id>, kind: Kind) {
    forall i | 0 <= i < |ids| :: ids[i] < |s| && s[ids[i]].kind == kind
  }

  /** The rows of one page's query: of its kind, each once. */
  ghost predicate QueryRows(s: Store, rows: seq<Id>, kind: Kind) { Distinct(rows) && OfKind(s, rows, kind) }

  ghost predicate Queries(s: Store, due: seq<Id>, rows: seq<seq<Id>>) {
    && QueryRows(s, due, Decision) && |due| <= MAX_DUE
    && |rows| == |KINDS| && forall i | 0 <= i < |KINDS| :: QueryRows(s, rows[i], KINDS[i])
  }

  function Total(ids: seq<Id>, size: Id -> nat): nat {
    if ids == [] then 0 else Total(ids[..|ids| - 1], size) + size(ids[|ids| - 1])
  }

  lemma TotalWith(ids: seq<Id>, id: Id, size: Id -> nat)
    ensures Total(ids + [id], size) == Total(ids, size) + size(id)
  {
    assert (ids + [id])[..|ids|] == ids;
  }

  /** Records kept so far come once each, from one kind of query. */
  lemma {:induction false} PageIsPart(p: Page, rows: seq<Id>, cap: nat, size: Id -> nat)
    requires Distinct(p.records + rows) && |p.records| <= cap
    ensures var r := PageOf(p, rows, cap, size);
            && |r.records| <= cap && Distinct(r.records)
            && (forall id | id in r.records :: id in p.records || id in rows)
            && (forall id | id in p.records :: id in r.records)
            && (p.limited ==> r.limited)
            && (!r.limited ==> forall id | id in rows :: id in r.records)
    decreases |rows|
  {
    if rows != [] {
      var n := PageStep(p, rows[0], cap, size);
      assert rows == [rows[0]] + rows[1..];
      assert p.records + rows == p.records + [rows[0]] + rows[1..];
      DistinctParts(p.records, rows[0], rows[1..]);
      PageIsPart(n, rows[1..], cap, size);
    } else {
      assert p.records + rows == p.records;
    }
  }

  lemma DistinctParts(a: seq<Id>, x: Id, b: seq<Id>)
    requires Distinct(a + [x] + b)
    ensures Distinct(a + b) && Distinct(a + [x]) && Distinct(a) && x !in a
  {
    var all := a + [x] + b;
    forall i, j | 0 <= i < j < |a + b| ensures (a + b)[i] != (a + b)[j] {
      var i', j' := if i < |a| then i else i + 1, if j < |a| then j else j + 1;
      assert (a + b)[i] == all[i'] && (a + b)[j] == all[j'];
    }
    assert forall i | 0 <= i < |a| :: a[i] == all[i] && all[i] != all[|a|];
    assert a + [x] == all[..|a| + 1];
    assert a == all[..|a|];
  }

  /** What a pack holds, in numbers. */
  ghost predicate Sized(l: Load, size: Id -> nat) { l.bytes == Total(l.records, size) <= MAX_BYTES }

  lemma {:induction false} PackIsPart(l: Load, rows: seq<Id>, size: Id -> nat)
    requires Sized(l, size) && Distinct(l.records + rows)
    ensures var r := Pack(l, rows, size);
            && Sized(r, size) && Distinct(r.records) && |r.records| <= |l.records| + |rows|
            && (forall id | id in r.records :: id in l.records || id in rows)
            && (forall id | id in l.records :: id in r.records)
            && r.limitedKinds == l.limitedKinds && (l.byteLimited ==> r.byteLimited)
            && (!r.byteLimited ==> forall id | id in rows :: id in r.records)
    decreases |rows|
  {
    if rows != [] {
      assert rows == [rows[0]] + rows[1..];
      assert l.records + rows == l.records + [rows[0]] + rows[1..];
      DistinctParts(l.records, rows[0], rows[1..]);
      TotalWith(l.records, rows[0], size);
      PackIsPart(PackStep(l, rows[0], size), rows[1..], size);
    } else {
      assert l.records + rows == l.records;
    }
  }

  lemma {:induction false} WithoutIsPart(rows: seq<Id>, due: seq<Id>)
    requires Distinct(rows)
    ensures var r := Without(rows, due);
            |r| <= |rows| && Distinct(r) && forall id :: id in r <==> id in rows && id !in due
  {
    if rows != [] {
      assert rows == [rows[0]] + rows[1..];
      assert rows[0] !in rows[1..];
      WithoutIsPart(rows[1..], due);
    }
  }

  lemma DistinctJoin(a: seq<Id>, b: seq<Id>)
    requires Distinct(a) && Distinct(b) && forall id | id in a :: id !in b
    ensures Distinct(a + b)
  {
    forall i, j | 0 <= i < j < |a + b| ensures (a + b)[i] != (a + b)[j] {
      if i < |a| <= j { assert a[i] in a && b[j - |a|] in b; }
    }
  }

  /** The records of the pages before the i-th, and how many there may be. */
  function QuotaBefore(i: nat, due: nat): nat
    requires i <= |KINDS|
  {
    if i == 0 then due else QuotaBefore(i - 1, due) + Quota(KINDS[i - 1], due)
  }

  ghost predicate LoadedSoFar(s: Store, l: Load, i: nat, due: seq<Id>, rows: seq<seq<Id>>, size: Id -> nat)
    requires i <= |rows| == |KINDS|
  {
    && Sized(l, size) && Distinct(l.records) && |l.records| <= QuotaBefore(i, |due|)
    && (forall id | id in l.records :: id < |s| && (id in due || exists k :: 0 <= k < i && s[id].kind == KINDS[k]))
    && (!l.byteLimited ==> forall id | id in due :: id in l.records)
    && (forall k | 0 <= k < i && !l.byteLimited && KINDS[k] !in l.limitedKinds ::
           forall id | id in rows[k] :: id in l.records)
  }

  lemma KindsAreDistinct(i: nat, k: nat)
    requires k < i < |KINDS|
    ensures KINDS[k] != KINDS[i]
  {
  }

  lemma KindKeeps(s: Store, l: Load, i: nat, due: seq<Id>, rows: seq<seq<Id>>, size: Id -> nat)
    requires Queries(s, due, rows) && i < |KINDS| && LoadedSoFar(s, l, i, due, rows, size)
    ensures LoadedSoFar(s, LoadKind(l, KINDS[i], rows[i], due, size), i + 1, due, rows, size)
  {
    var cap := Quota(KINDS[i], |due|);
    assert EMPTY_PAGE.records + rows[i] == rows[i];
    PageIsPart(EMPTY_PAGE, rows[i], cap, size);
    var page := PageOf(EMPTY_PAGE, rows[i], cap, size);
    WithoutIsPart(page.records, due);
    var rest := Without(page.records, due);
    forall k | 0 <= k < i { KindsAreDistinct(i, k); }
    assert forall id | id in rest :: id in rows[i] && s[id].kind == KINDS[i] && id !in due;
    DistinctJoin(l.records, rest);
    var l1 :=
      l.(byteLimited := l.byteLimited || page.byteLimited,
      limitedKinds := if page.limited then l.limitedKinds + [KINDS[i]] else l.limitedKinds);
    PackIsPart(l1, rest, size);
    PackedSoFar(s, l, l1, Pack(l1, rest, size), page, rest, i, due, rows, size);
  }

  lemma PackedSoFar(s: Store, l: Load, l1: Load, r: Load, page: Page, more: seq<Id>, i: nat, due: seq<Id>,
      rows: seq<seq<Id>>, size: Id -> nat)
    requires Queries(s, due, rows) && i < |KINDS| && LoadedSoFar(s, l, i, due, rows, size)
    requires l1.records == l.records && (l.byteLimited ==> l1.byteLimited)
             && (page.limited ==> KINDS[i] in l1.limitedKinds)
    requires forall k | k in l.limitedKinds :: k in l1.limitedKinds
    requires forall id :: id in more <==> id in page.records && id !in due
    requires |more| <= Quota(KINDS[i], |due|) && (forall id | id in page.records :: id in rows[i])
    requires !page.limited ==> forall id | id in rows[i] :: id in page.records
    requires Sized(r, size) && Distinct(r.records) && |r.records| <= |l1.records| + |more|
    requires forall id | id in r.records :: id in l1.records || id in more
    requires forall id | id in l1.records :: id in r.records
    requires r.limitedKinds == l1.limitedKinds && (l1.byteLimited ==> r.byteLimited)
             && (!r.byteLimited ==> forall id | id in more :: id in r.records)
    ensures LoadedSoFar(s, r, i + 1, due, rows, size)
  {
    forall id | id in r.records
      ensures id < |s| && (id in due || exists k :: 0 <= k < i + 1 && s[id].kind == KINDS[k])
    {
      if id in more {
        assert id in rows[i] && s[id].kind == KINDS[i];
      }
    }
  }

  lemma {:induction false} KindsKeep(s: Store, l: Load, i: nat, due: seq<Id>, rows: seq<seq<Id>>, size: Id -> nat)
    requires Queries(s, due, rows) && i <= |KINDS| && LoadedSoFar(s, l, i, due, rows, size)
    ensures LoadedSoFar(s, LoadKinds(l, i, rows, due, size), |KINDS|, due, rows, size)
    decreases |KINDS| - i
  {
    if i < |KINDS| {
      KindKeeps(s, l, i, due, rows, size);
      KindsKeep(s, LoadKind(l, KINDS[i], rows[i], due, size), i + 1, due, rows, size);
    }
  }

  lemma QuotasFit(due: nat)
    requires due <= MAX_DUE
    ensures QuotaBefore(|KINDS|, due) == 256
  {
    assert QuotaBefore(1, due) == 64;
    assert QuotaBefore(3, due) == 128;
    assert QuotaBefore(5, due) == 176;
  }

  lemma LoadIsSound(s: Store, due: seq<Id>, rows: seq<seq<Id>>, size: Id -> nat)
    requires Queries(s, due, rows)
    ensures LoadedSoFar(s, Loaded(due, rows, size), |KINDS|, due, rows, size)
  {
    var start := Load([], 0, false, if |due| == MAX_DUE then [Decision] else []);
    assert [] + due == due;
    PackIsPart(start, due, size);
    KindsKeep(s, LoadDue(due, size), 0, due, rows, size);
  }

  /** A briefing never loads more than 256 records or 256 KiB, and no record
      twice. */
  lemma LoadIsBounded(s: Store, due: seq<Id>, rows: seq<seq<Id>>, size: Id -> nat)
    requires Queries(s, due, rows)
    ensures var l := Loaded(due, rows, size);
            |l.records| <= 256 && Total(l.records, size) <= MAX_BYTES && Distinct(l.records)
  {
    LoadIsSound(s, due, rows, size);
    QuotasFit(|due|);
  }

  /** What a query returned and the briefing lacks is disclosed: the coverage
      says that bytes ran out, or that the record's kind was cut. */
  lemma OmissionsAreDisclosed(s: Store, due: seq<Id>, rows: seq<seq<Id>>, size: Id -> nat, k: nat, id: Id)
    requires Queries(s, due, rows) && k < |KINDS| && (id in rows[k] || id in due)
    ensures var l := Loaded(due, rows, size);
            id !in l.records ==> l.byteLimited || (id in rows[k] && id !in due && KINDS[k] in l.limitedKinds)
  {
    LoadIsSound(s, due, rows, size);
  }

  // Classifying the corrections that were loaded.

  /** All corrections share 128 lookups; one whose ancestry is not reached is
      reported, never taken for an instruction. */
  method ClassifyCorrections(s: Store, loaded: seq<Id>) returns (instructions: set<Id>, unresolved: seq<Id>)
    requires Inv(s, true) && forall i | 0 <= i < |loaded| :: loaded[i] < |s|
    ensures forall id | id in instructions ::
              id in loaded && s[id].kind.Correction? && s[Root(s, id)].kind.UserInstruction?
    ensures forall id | id in loaded && s[id].kind.Correction? && s[Root(s, id)].kind.UserInstruction? ::
              id in instructions || id in unresolved
  {
    instructions, unresolved := {}, [];
    var left: nat := ANCESTRY_BUDGET;
    for i := 0 to |loaded|
      invariant forall id | id in instructions ::
                  id in loaded && s[id].kind.Correction? && s[Root(s, id)].kind.UserInstruction?
      invariant forall k | 0 <= k < i && s[loaded[k]].kind.Correction? && s[Root(s, loaded[k])].kind.UserInstruction? ::
                  loaded[k] in instructions || loaded[k] in unresolved
    {
      var id := loaded[i];
      if s[id].kind.Correction? {
        WalkIsSound(s, true, s[id].scope, id, MAX_STEPS, left);
        var kind;
        kind, left := FindSemanticKind(s, id, left);
        if kind == Some(UserInstruction) {
          instructions := instructions + {id};
        } else if kind.None? {
          unresolved := unresolved + [id];
          assert unresolved[|unresolved| - 1] == id;
        }
      }
    }
  }
}
