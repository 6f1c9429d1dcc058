/** The coordinator's observation feed: batches of operational observations,
    kept in memory and in a table, one per conversation. */
module Observations {
  import opened Wrappers
  import Sets

  const MAX_OBSERVATIONS: nat := 256
  const MAX_SUMMARY_BYTES: nat := 4 * 1024
  const MAX_IDENTITY_BYTES: nat := 256
  const U64_MAX: nat := 0xFFFF_FFFF_FFFF_FFFF
  const I64_LIMIT: int := 0x8000_0000_0000_0000

  datatype Status = Working | Ready | NeedsYou | Error | Parked

  datatype Key = Key(node: string, provider: string, conversation: string)

  type Revision = n: nat | n <= U64_MAX

  datatype Item = Item(key: Key, project: Option<string>, status: Status, summary: string, observedAt: int,
      revision: Revision)

  datatype Change = Change(key: Key, previous: Option<Revision>, revision: Revision)

  predicate Control(c: char) { c < ' ' || c == 127 as char }

  predicate Identity(s: string) {
    s != "" && |s| <= MAX_IDENTITY_BYTES && forall i | 0 <= i < |s| :: !Control(s[i])
  }

  predicate ValidItem(o: Item) {
    && Identity(o.key.node) && Identity(o.key.provider) && Identity(o.key.conversation)
    && |o.summary| <= MAX_SUMMARY_BYTES && forall i | 0 <= i < |o.summary| :: !Control(o.summary[i])
  }

  // One item.

  predicate Stale(items: map<Key, Item>, o: Item) {
    o.key in items && o.observedAt < items[o.key].observedAt
  }

  predicate Material(items: map<Key, Item>, o: Item) {
    o.key in items ==>
      var last := items[o.key];
      last.revision != o.revision || last.status != o.status || last.summary != o.summary || last.project != o.project
  }

  function Absorb(items: map<Key, Item>, o: Item): map<Key, Item> {
    if Stale(items, o) then items else items[o.key := o]
  }

  function ChangeOf(items: map<Key, Item>, o: Item): seq<Change> {
    if Stale(items, o) || !Material(items, o) then []
    else [Change(o.key, if o.key in items then Some(items[o.key].revision) else None, o.revision)]
  }

  // One batch.

  function Keys(batch: seq<Item>): set<Key> { set o | o in batch :: o.key }

  predicate Admissible(items: map<Key, Item>, batch: seq<Item>) {
    && |batch| <= MAX_OBSERVATIONS
    && (forall o | o in batch :: ValidItem(o))
    && |items.Keys| + (|Keys(batch)| - |Keys(batch) * items.Keys|) <= MAX_OBSERVATIONS
  }

  function AbsorbAll(items: map<Key, Item>, batch: seq<Item>): map<Key, Item>
    decreases |batch|
  {
    if batch == [] then items else AbsorbAll(Absorb(items, batch[0]), batch[1..])
  }

  function Changes(items: map<Key, Item>, batch: seq<Item>): seq<Change>
    decreases |batch|
  {
    if batch == [] then [] else ChangeOf(items, batch[0]) + Changes(Absorb(items, batch[0]), batch[1..])
  }

  // The table holds every item as text and signed integers.

  datatype Row = Row(project: Option<string>, status: string, summary: string, observedAt: int, revision: int)

  function StatusName(s: Status): string {
    match s
    case Working => "working"
    case Ready => "ready"
    case NeedsYou => "needs-you"
    case Error => "error"
    case Parked => "parked"
  }

  function ParseStatus(s: string): Status {
    if s == "working" then Working
    else if s == "needs-you" then NeedsYou
    else if s == "error" then Error
    else if s == "parked" then Parked
    else Ready
  }

  function AsSigned(n: Revision): int { if n < I64_LIMIT then n else n - 2 * I64_LIMIT }

  function AsUnsigned(i: int): Revision
    requires -I64_LIMIT <= i < I64_LIMIT
  {
    if 0 <= i then i else i + 2 * I64_LIMIT
  }

  function Stored(o: Item): Row {
    Row(o.project, StatusName(o.status), o.summary, o.observedAt, AsSigned(o.revision))
  }

  function StoredAll(items: map<Key, Item>): map<Key, Row> { map k | k in items :: Stored(items[k]) }

  ghost predicate Loadable(table: map<Key, Row>) {
    forall k | k in table :: -I64_LIMIT <= table[k].revision < I64_LIMIT
  }

  function Loaded(table: map<Key, Row>): map<Key, Item>
    requires Loadable(table)
  {
    map k | k in table ::
      Item(k, table[k].project, ParseStatus(table[k].status), table[k].summary, table[k].observedAt,
        AsUnsigned(table[k].revision))
  }

  /** Each item is filed under its own key. */
  ghost predicate Filed(items: map<Key, Item>) { forall k | k in items :: items[k].key == k }

  /** What is stored is read back exactly at the next start. */
  lemma StoredIsLoaded(items: map<Key, Item>)
    requires Filed(items)
    ensures Loadable(StoredAll(items)) && Loaded(StoredAll(items)) == items
  {
  }

  function Saturate(n: nat): nat { if n <= U64_MAX then n else U64_MAX }

  class Feed {
    var observations: map<Key, Item>
    var table: map<Key, Row>
    var revision: nat

    /** Memory and table agree, and the bound on conversations holds. */
    ghost predicate Valid()
      reads this
    {
      Filed(observations) && table == StoredAll(observations) && |observations| <= MAX_OBSERVATIONS
        && revision <= U64_MAX
    }

    /** Reads back what earlier batches stored. */
    constructor (rows: map<Key, Row>)
      requires Loadable(rows) && |rows| <= MAX_OBSERVATIONS && rows == StoredAll(Loaded(rows))
      ensures Valid() && table == rows && observations == Loaded(rows) && revision == 0
    {
      observations, table, revision := Loaded(rows), rows, 0;
      assert Loaded(rows).Keys == rows.Keys;
    }

    /** A batch is taken whole or not at all; every stored item replaces an
        older one, and the revision counts the material changes. */
    method Observe(batch: seq<Item>) returns (r: Option<seq<Change>>)
      requires Valid()
      modifies this
      ensures Valid()
      ensures r.Some? <==> Admissible(old(observations), batch)
      ensures r.None? ==> observations == old(observations) && table == old(table) && revision == old(revision)
      ensures r.Some? ==>
                && observations == AbsorbAll(old(observations), batch)
                && r.value == Changes(old(observations), batch)
                && var counted := old(revision) + |r.value|;
                   revision == if counted < 0x1_0000_0000_0000_0000 then counted else 0xFFFF_FFFF_FFFF_FFFF
    {
      if !Admissible(observations, batch) {
        return None;
      }
      AdmittedStaysBounded(observations, batch);
      var changes := Take(batch);
      r := Some(changes);
    }

    method Take(batch: seq<Item>) returns (changes: seq<Change>)
      requires Filed(observations) && table == StoredAll(observations) && revision <= U64_MAX
      modifies this
      ensures Filed(observations) && table == StoredAll(observations)
      ensures observations == AbsorbAll(old(observations), batch)
      ensures changes == Changes(old(observations), batch)
      ensures revision == Saturate(old(revision) + |changes|)
    {
      changes := [];
      for i := 0 to |batch|
        invariant Filed(observations) && table == StoredAll(observations)
        invariant AbsorbAll(old(observations), batch) == AbsorbAll(observations, batch[i..])
        invariant Changes(old(observations), batch) == changes + Changes(observations, batch[i..])
        invariant revision == Saturate(old(revision) + |changes|)
      {
        RestOfBatch(observations, batch, i);
        ghost var before := changes;
        ghost var rest := Changes(Absorb(observations, batch[i]), batch[i + 1..]);
        var change := TakeOne(batch[i]);
        changes := changes + change;
        assert before + (change + rest) == changes + rest;
      }
      assert batch[|batch|..] == [];
      assert changes + [] == changes;
    }

    /** An item observed before the one on file is dropped; any other replaces
        it, and counts if it differs in more than its time. */
    method TakeOne(o: Item) returns (change: seq<Change>)
      requires Filed(observations) && table == StoredAll(observations) && revision <= U64_MAX
      modifies this
      ensures Filed(observations) && table == StoredAll(observations)
      ensures observations == Absorb(old(observations), o)
      ensures change == ChangeOf(old(observations), o)
      ensures revision == Saturate(old(revision) + |change|)
    {
      if Stale(observations, o) {
        return [];
      }
      change := [];
      if Material(observations, o) {
        revision := if revision == U64_MAX then U64_MAX else revision + 1;
        change :=
          [Change(o.key, if o.key in observations then Some(observations[o.key].revision) else None, o.revision)];
      }
      table := table[o.key := Stored(o)];
      observations := observations[o.key := o];
      assert table == StoredAll(observations);
    }
  }

  lemma RestOfBatch(items: map<Key, Item>, batch: seq<Item>, i: nat)
    requires i < |batch|
    ensures AbsorbAll(items, batch[i..]) == AbsorbAll(Absorb(items, batch[i]), batch[i + 1..])
    ensures Changes(items, batch[i..]) == ChangeOf(items, batch[i]) + Changes(Absorb(items, batch[i]), batch[i + 1..])
  {
    assert batch[i..][1..] == batch[i + 1..];
  }

  lemma AdmittedStaysBounded(items: map<Key, Item>, batch: seq<Item>)
    requires Admissible(items, batch)
    ensures |AbsorbAll(items, batch)| <= MAX_OBSERVATIONS
  {
    AbsorbedKeys(items, batch);
    KeysStayBounded(items.Keys, Keys(batch));
    assert |AbsorbAll(items, batch)| == |AbsorbAll(items, batch).Keys|;
  }

  lemma {:induction false} AbsorbedKeys(items: map<Key, Item>, batch: seq<Item>)
    ensures AbsorbAll(items, batch).Keys == items.Keys + Keys(batch)
    decreases |batch|
  {
    if batch != [] {
      AbsorbedKeys(Absorb(items, batch[0]), batch[1..]);
      assert batch == [batch[0]] + batch[1..];
      assert Keys(batch) == {batch[0].key} + Keys(batch[1..]);
      assert Absorb(items, batch[0]).Keys == items.Keys + {batch[0].key};
    }
  }

  lemma KeysStayBounded(a: set<Key>, b: set<Key>)
    ensures |a + b| == |a| + (|b| - |b * a|)
  {
    assert a + b == a + (b - a);
    assert b == (b - a) + (b * a);
  }

  // What a batch needs, and what it reports.

  /** No control character of ASCII. */
  predicate Printable(s: string) { forall i | 0 <= i < |s| :: s[i] >= ' ' && s[i] as int != 127 }

  /** A batch is taken exactly if it has at most 256 items, every identity in it is
      of one to 256 bytes and every summary of at most four KiB, all without
      control characters, and at most 256 keys would be on file. */
  lemma TakenExactlyWhen(items: map<Key, Item>, batch: seq<Item>)
    ensures Admissible(items, batch) <==>
              && |batch| <= 256
              && (forall i | 0 <= i < |batch| ::
                    && 1 <= |batch[i].key.node| <= 256 && Printable(batch[i].key.node)
                    && 1 <= |batch[i].key.provider| <= 256 && Printable(batch[i].key.provider)
                    && 1 <= |batch[i].key.conversation| <= 256 && Printable(batch[i].key.conversation)
                    && |batch[i].summary| <= 4096 && Printable(batch[i].summary))
              && |items.Keys + Keys(batch)| <= 256
  {
    KeysStayBounded(items.Keys, Keys(batch));
    forall i | 0 <= i < |batch| ensures ValidItem(batch[i]) <==>
        && 1 <= |batch[i].key.node| <= 256 && Printable(batch[i].key.node)
        && 1 <= |batch[i].key.provider| <= 256 && Printable(batch[i].key.provider)
        && 1 <= |batch[i].key.conversation| <= 256 && Printable(batch[i].key.conversation)
        && |batch[i].summary| <= 4096 && Printable(batch[i].summary)
    {
      var o := batch[i];
      PrintableIsUncontrolled(o.key.node);
      PrintableIsUncontrolled(o.key.provider);
      PrintableIsUncontrolled(o.key.conversation);
      PrintableIsUncontrolled(o.summary);
    }
  }

  lemma PrintableIsUncontrolled(s: string)
    ensures Printable(s) <==> forall i | 0 <= i < |s| :: !Control(s[i])
  {
    if Printable(s) {
      forall i | 0 <= i < |s| ensures !Control(s[i]) { assert s[i] >= ' ' && s[i] as int != 127; }
    } else {
      var i :| 0 <= i < |s| && !(s[i] >= ' ' && s[i] as int != 127);
      assert Control(s[i]);
    }
  }

  lemma {:induction false} OneItemMore(items: map<Key, Item>, batch: seq<Item>, o: Item)
    ensures AbsorbAll(items, batch + [o]) == Absorb(AbsorbAll(items, batch), o)
    ensures Changes(items, batch + [o]) == Changes(items, batch) + ChangeOf(AbsorbAll(items, batch), o)
    decreases |batch|
  {
    if batch == [] {
      assert [] + [o] == [o] && [o][1..] == [];
      assert Changes(Absorb(items, o), []) == [];
      assert ChangeOf(items, o) + [] == ChangeOf(items, o);
    } else {
      assert (batch + [o])[1..] == batch[1..] + [o];
      OneItemMore(Absorb(items, batch[0]), batch[1..], o);
    }
  }

  /** An item is reported exactly if none on file for its key is newer and it is
      the first for it or differs in project, status, summary or revision; the
      report names the revision it replaces. */
  lemma ReportedExactlyWhen(items: map<Key, Item>, batch: seq<Item>, i: nat)
    requires i < |batch|
    ensures var o, past := batch[i], AbsorbAll(items, batch[..i]);
            Changes(items, batch[..i + 1]) == Changes(items, batch[..i]) +
              if o.key !in past then [Change(o.key, None, o.revision)]
              else if past[o.key].observedAt <= o.observedAt
                && (past[o.key].project, past[o.key].status, past[o.key].summary, past[o.key].revision)
                   != (o.project, o.status, o.summary, o.revision)
              then [Change(o.key, Some(past[o.key].revision), o.revision)]
              else []
  {
    assert batch[..i + 1] == batch[..i] + [batch[i]];
    OneItemMore(items, batch[..i], batch[i]);
  }

  /** A batch that reports nothing brings no key, and changes nothing on file but
      times, which only rise. */
  lemma {:induction false} QuietBatchOnlyRefreshes(items: map<Key, Item>, batch: seq<Item>)
    requires Filed(items) && Changes(items, batch) == []
    ensures var after := AbsorbAll(items, batch);
            && after.Keys == items.Keys
            && forall k | k in items ::
                 after[k] == items[k].(observedAt := after[k].observedAt) && items[k].observedAt <= after[k].observedAt
    decreases |batch|
  {
    if batch != [] {
      assert ChangeOf(items, batch[0]) == [];
      assert Absorb(items, batch[0]).Keys == items.Keys;
      QuietBatchOnlyRefreshes(Absorb(items, batch[0]), batch[1..]);
    }
  }

  // Any batches, and any restarts.

  /** A batch is offered, and goes through; or it is cut short when so many of
      its items are stored, by a write that fails or by the death of the
      process, which then starts again from the table. */
  datatype Event = Offered(batch: seq<Item>) | Cut(batch: seq<Item>, written: nat, restarted: bool)

  /** The items an event leaves stored, in the order they arrived. */
  function StoredBy(items: map<Key, Item>, e: Event): seq<Item> {
    if !Admissible(items, e.batch) then []
    else if e.Cut? && e.written < |e.batch| then e.batch[..e.written]
    else e.batch
  }

  function Next(items: map<Key, Item>, e: Event): map<Key, Item> {
    var next := AbsorbAll(items, StoredBy(items, e));
    if e.Cut? && e.restarted then Loaded(StoredAll(next)) else next
  }

  function After(items: map<Key, Item>, events: seq<Event>): map<Key, Item>
    decreases |events|
  {
    if events == [] then items else After(Next(items, events[0]), events[1..])
  }

  function Arrived(items: map<Key, Item>, events: seq<Event>): seq<Item>
    decreases |events|
  {
    if events == [] then [] else StoredBy(items, events[0]) + Arrived(Next(items, events[0]), events[1..])
  }

  /** A batch cut short is a shorter batch, and what is read back is what was
      stored. */
  lemma NextIsAbsorbed(items: map<Key, Item>, e: Event)
    requires Filed(items) && |items| <= MAX_OBSERVATIONS
    ensures var next := Next(items, e);
            next == AbsorbAll(items, StoredBy(items, e)) && Filed(next) && |next| <= MAX_OBSERVATIONS
  {
    var stored := StoredBy(items, e);
    AbsorbAllFiles(items, stored);
    StoredIsLoaded(AbsorbAll(items, stored));
    if stored != [] {
      PartIsAdmissible(items, e.batch, |stored|);
      AdmittedStaysBounded(items, stored);
    }
  }

  lemma {:induction false} AbsorbAllFiles(items: map<Key, Item>, batch: seq<Item>)
    requires Filed(items)
    ensures Filed(AbsorbAll(items, batch))
    decreases |batch|
  {
    if batch != [] { AbsorbAllFiles(Absorb(items, batch[0]), batch[1..]); }
  }

  lemma PartHasFewerNew(part: set<Key>, whole: set<Key>, known: set<Key>)
    requires part <= whole
    ensures |part| - |part * known| <= |whole| - |whole * known|
  {
    assert part == (part - known) + (part * known) && whole == (whole - known) + (whole * known);
    Sets.SubsetIsSmaller(part - known, whole - known);
  }

  lemma PartIsAdmissible(items: map<Key, Item>, batch: seq<Item>, n: nat)
    requires Admissible(items, batch) && n <= |batch|
    ensures Admissible(items, batch[..n])
  {
    PartHasFewerNew(Keys(batch[..n]), Keys(batch), items.Keys);
  }

  /** The item a scan keeps for a key: a later arrival wins unless it was
      observed earlier. */
  function Winner(all: seq<Item>, k: Key): Option<Item> {
    if all == [] then None
    else
      var earlier, o := Winner(all[..|all| - 1], k), all[|all| - 1];
      if o.key == k && (earlier.None? || earlier.value.observedAt <= o.observedAt) then Some(o) else earlier
  }

  ghost predicate HoldsWinners(all: seq<Item>, items: map<Key, Item>) {
    forall k :: Winner(all, k) == if k in items then Some(items[k]) else None
  }

  lemma AbsorbHoldsWinners(all: seq<Item>, items: map<Key, Item>, o: Item)
    requires HoldsWinners(all, items)
    ensures HoldsWinners(all + [o], Absorb(items, o))
  {
    assert (all + [o])[..|all|] == all;
  }

  lemma {:induction false} AbsorbAllHoldsWinners(all: seq<Item>, items: map<Key, Item>, batch: seq<Item>)
    requires HoldsWinners(all, items)
    ensures HoldsWinners(all + batch, AbsorbAll(items, batch))
    decreases |batch|
  {
    if batch == [] {
      assert all + batch == all;
    } else {
      AbsorbHoldsWinners(all, items, batch[0]);
      AbsorbAllHoldsWinners(all + [batch[0]], Absorb(items, batch[0]), batch[1..]);
      assert all + [batch[0]] + batch[1..] == all + batch;
    }
  }

  lemma NextHoldsWinners(all: seq<Item>, items: map<Key, Item>, e: Event)
    requires HoldsWinners(all, items) && Filed(items) && |items| <= MAX_OBSERVATIONS
    ensures HoldsWinners(all + StoredBy(items, e), Next(items, e))
  {
    NextIsAbsorbed(items, e);
    AbsorbAllHoldsWinners(all, items, StoredBy(items, e));
  }

  lemma {:induction false} EventsHoldWinners(all: seq<Item>, items: map<Key, Item>, events: seq<Event>)
    requires HoldsWinners(all, items) && Filed(items) && |items| <= MAX_OBSERVATIONS
    ensures HoldsWinners(all + Arrived(items, events), After(items, events))
    ensures |After(items, events)| <= MAX_OBSERVATIONS
    decreases |events|
  {
    if events == [] {
      assert all + [] == all;
    } else {
      NextIsAbsorbed(items, events[0]);
      NextHoldsWinners(all, items, events[0]);
      EventsHoldWinners(all + StoredBy(items, events[0]), Next(items, events[0]), events[1..]);
      FirstEvent(all, items, events);
    }
  }

  lemma Associates(a: seq<Item>, b: seq<Item>, c: seq<Item>)
    ensures a + b + c == a + (b + c)
  {
  }

  lemma FirstEvent(all: seq<Item>, items: map<Key, Item>, events: seq<Event>)
    requires events != []
    ensures var next := Next(items, events[0]);
            && After(items, events) == After(next, events[1..])
            && all + Arrived(items, events) == all + StoredBy(items, events[0]) + Arrived(next, events[1..])
  {
    Associates(all, StoredBy(items, events[0]), Arrived(Next(items, events[0]), events[1..]));
  }

  /** The i-th arrival is its key's last among those observed latest. */
  ghost predicate Latest(all: seq<Item>, i: int) {
    && 0 <= i < |all|
    && forall k | 0 <= k < |all| && all[k].key == all[i].key ::
         all[k].observedAt <= all[i].observedAt && (i < k ==> all[k].observedAt < all[i].observedAt)
  }

  lemma {:induction false} WinnerIsLatest(all: seq<Item>, k: Key) returns (i: nat)
    ensures Winner(all, k).None? ==> forall n | 0 <= n < |all| :: all[n].key != k
    ensures Winner(all, k).Some? ==> Latest(all, i) && all[i] == Winner(all, k).value && all[i].key == k
  {
    i := 0;
    if all != [] {
      var last := |all| - 1;
      i := WinnerIsLatest(all[..last], k);
      if all[last].key == k && Winner(all, k) == Some(all[last]) {
        i := last;
      }
    }
  }

  /** Last writer wins: after any batches from an empty feed, and any failed
      writes, deaths and restarts, in the midst of a batch or between two, each
      key holds its latest-arriving item among those stored with the greatest
      observation time, a key of which none was stored holds none, and at most
      256 keys exist. */
  lemma LastWriterWins(events: seq<Event>, k: Key)
    ensures var all, items := Arrived(map[], events), After(map[], events);
            && |items| <= MAX_OBSERVATIONS
            && if k in items then exists i :: Latest(all, i) && all[i] == items[k] && all[i].key == k
               else forall n | 0 <= n < |all| :: all[n].key != k
  {
    EventsHoldWinners([], map[], events);
    var all := Arrived(map[], events);
    assert [] + all == all;
    var i := WinnerIsLatest(all, k);
  }
}
