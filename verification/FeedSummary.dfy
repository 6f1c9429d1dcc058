/** What the board feed says: the counts of a board and its latest call for
    attention. */
module FeedSummary {
  import opened Wrappers
  import opened FeedText
  import opened FeedCodec
  import opened Texts

  /** A board row. `at` is none for a time that is no finite number; `pending`
      says that its evidence is still being confirmed. */
  datatype Item = Item(
    status: Status, stale: bool, pending: bool, at: Option<real>,
    node: Option<string>, nodeName: Option<string>, provider: Provider, session: string, name: string)

  datatype Group = NeedsAttention | AtWork | AtRest | Away

  function GroupOf(status: Status, stale: bool): Group {
    if stale then Away
    else match status
      case NeedsYou | Error | OpenTwiceNow | UnboundNow => NeedsAttention
      case Working | Starting => AtWork
      case ReadyNow => AtRest
      case Parked => Away
  }

  function Count(items: seq<Item>, g: Group, matches: Item -> bool): nat {
    if items == [] then 0
    else
      var others, i := Count(items[..|items| - 1], g, matches), items[|items| - 1];
      if matches(i) && GroupOf(i.status, i.stale) == g then others + 1 else others
  }

  // The order of calls for attention.

  function Time(i: Item): real { if i.at.Some? && i.at.value > 0.0 then i.at.value else 0.0 }

  /** A row's machine, provider and session id; no machine comes first. */
  function Keys(i: Item): seq<string> {
    [if i.node.None? then "" else "@" + i.node.value, ProviderName(i.provider), i.session]
  }

  function CompareAll(a: seq<string>, b: seq<string>): int
    requires |a| == |b|
    decreases |a|
  {
    if a == [] then 0 else if Order(a[0], b[0]) != 0 then Order(a[0], b[0]) else CompareAll(a[1..], b[1..])
  }

  lemma {:induction false} ComparesAllInOrder(a: seq<string>, b: seq<string>, c: seq<string>)
    requires |a| == |b| == |c|
    ensures CompareAll(a, a) == 0 && (CompareAll(a, b) < 0 <==> CompareAll(b, a) > 0)
    ensures CompareAll(a, b) <= 0 && CompareAll(b, c) <= 0 ==> CompareAll(a, c) <= 0
    decreases |a|
  {
    if a != [] {
      OrdersInTurn(a[0], b[0], c[0]);
      OrdersInTurn(b[0], a[0], a[0]);
      OrdersInTurn(c[0], b[0], a[0]);
      OrderIsLess(a[0], b[0]);
      OrderIsLess(b[0], c[0]);
      ComparesAllInOrder(a[1..], b[1..], c[1..]);
    }
  }

  function CompareItems(a: Item, b: Item): int {
    if Time(a) < Time(b) then -1 else if Time(a) > Time(b) then 1 else CompareAll(Keys(a), Keys(b))
  }

  // That order, said without comparing lists.

  /** A time that is none, or not after the epoch, counts as the epoch's. */
  function At(at: Option<real>): real { if at.None? || at.value <= 0.0 then 0.0 else at.value }

  /** A row comes before another by its time, and at the same time by its
      machine, of which none comes first, then its provider's name, and then its
      session id. */
  predicate Before(a: Item, b: Item) {
    || At(a.at) < At(b.at)
    || (&& At(a.at) == At(b.at)
        && (|| NodeBefore(a.node, b.node)
            || (a.node == b.node && Less(ProviderName(a.provider), ProviderName(b.provider)))
            || (a.node == b.node && a.provider == b.provider && Less(a.session, b.session))))
  }

  predicate NodeBefore(a: Option<string>, b: Option<string>) { b.Some? && (a.None? || Less(a.value, b.value)) }

  lemma PrefixedOrder(a: Option<string>, b: Option<string>)
    ensures var c := Order(if a.None? then "" else "@" + a.value, if b.None? then "" else "@" + b.value);
            (c < 0 <==> NodeBefore(a, b)) && (c == 0 <==> a == b)
  {
    if a.Some? && b.Some? {
      assert ("@" + a.value)[1..] == a.value && ("@" + b.value)[1..] == b.value;
      OrderIsLess(a.value, b.value);
    }
  }

  lemma ComparesThree(a: seq<string>, b: seq<string>)
    requires |a| == |b| == 3
    ensures CompareAll(a, b) == if Order(a[0], b[0]) != 0 then Order(a[0], b[0])
                                else if Order(a[1], b[1]) != 0 then Order(a[1], b[1])
                                else Order(a[2], b[2])
  {
    assert a[1..][1..] == a[2..] && b[1..][1..] == b[2..];
    assert a[2..][1..] == [] && b[2..][1..] == [];
    assert CompareAll(a[2..], b[2..]) == Order(a[2], b[2]);
  }

  lemma NamesTell(p: Provider, q: Provider)
    requires ProviderName(p) == ProviderName(q)
    ensures p == q
  {
  }

  lemma ComparedIsBefore(a: Item, b: Item)
    ensures CompareItems(a, b) < 0 <==> Before(a, b)
  {
    var j, k := Keys(a), Keys(b);
    ComparesThree(j, k);
    PrefixedOrder(a.node, b.node);
    OrderIsLess(j[1], k[1]);
    OrderIsLess(j[2], k[2]);
    if ProviderName(a.provider) == ProviderName(b.provider) { NamesTell(a.provider, b.provider); }
  }

  /** Whether a row calls for attention in a group: it must be confirmed. */
  predicate Calls(i: Item, g: Group, matches: Item -> bool) {
    !i.stale && !i.pending && GroupOf(i.status, false) == g && matches(i)
  }

  /** The greatest calling row, the last of equals. */
  function Greatest(items: seq<Item>, g: Group, matches: Item -> bool): Option<Item> {
    if items == [] then None
    else
      var earlier, i := Greatest(items[..|items| - 1], g, matches), items[|items| - 1];
      if !Calls(i, g, matches) then earlier
      else if earlier.Some? && CompareItems(earlier.value, i) > 0 then earlier
      else Some(i)
  }

  lemma {:induction false} GreatestIsGreatest(items: seq<Item>, g: Group, matches: Item -> bool)
    ensures var r := Greatest(items, g, matches);
            && (r.None? <==> forall i | i in items :: !Calls(i, g, matches))
            && (r.Some? ==> r.value in items && Calls(r.value, g, matches))
            && (r.Some? ==> forall i | i in items && Calls(i, g, matches) :: CompareItems(i, r.value) <= 0)
  {
    if items != [] {
      var front, last := items[..|items| - 1], items[|items| - 1];
      GreatestIsGreatest(front, g, matches);
      var earlier, r := Greatest(front, g, matches), Greatest(items, g, matches);
      assert items == front + [last];
      assert forall i | i in items :: i in front || i == last;
      assert last in items && forall i | i in front :: i in items;
      ComparesAllInOrder(Keys(last), Keys(last), Keys(last));
      if earlier.Some? {
        ComparesAllInOrder(Keys(earlier.value), Keys(last), Keys(last));
        forall i | i in front && Calls(i, g, matches) ensures CompareItems(i, r.value) <= 0 {
          ComparesAllInOrder(Keys(i), Keys(earlier.value), Keys(last));
        }
      }
    }
  }

  // The summary.

  function Warning(i: Item): Option<Kind> {
    match i.status
    case OpenTwiceNow => Some(OpenTwice)
    case Error => Some(Failed)
    case UnboundNow => Some(Unbound)
    case _ => None
  }

  function LabelOf(i: Item, letters: char -> bool): string {
    var machine := if i.nodeName.Some? then i.nodeName else i.node;
    SafeLabel(i.name + (if machine.Some? then " @" + machine.value else ""), letters)
  }

  /** A row that needs the user goes before any that is merely ready. */
  function LatestAttention(items: seq<Item>, matches: Item -> bool, letters: char -> bool)
      : Option<(string, Option<Kind>)>
  {
    var needs, rests := Greatest(items, NeedsAttention, matches), Greatest(items, AtRest, matches);
    var latest := if needs.Some? then needs else rests;
    if latest.None? || LabelOf(latest.value, letters) == "" then None
    else Some((LabelOf(latest.value, letters), if needs.Some? then Warning(latest.value) else Some(Ready)))
  }

  function Summarize(items: seq<Item>, colors: bool, matches: Item -> bool, letters: char -> bool): Summary {
    var attention := LatestAttention(items, matches, letters);
    Summary(
      Count(items, NeedsAttention, matches), Count(items, AtWork, matches),
      Count(items, AtRest, matches), Count(items, Away, matches), colors,
      if attention.None? then None else Some(attention.value.0),
      if attention.None? then None else attention.value.1)
  }

  lemma {:induction false} CountedIfThere(items: seq<Item>, i: Item, g: Group, matches: Item -> bool)
    requires i in items && matches(i) && GroupOf(i.status, i.stale) == g
    ensures Count(items, g, matches) > 0
  {
    if items[|items| - 1] != i {
      assert i in items[..|items| - 1];
      CountedIfThere(items[..|items| - 1], i, g, matches);
    }
  }

  /** The matching rows with one of these statuses whose machine is current. */
  function Fresh(items: seq<Item>, statuses: set<Status>, matches: Item -> bool): set<nat> {
    set k: nat | k < |items| && matches(items[k]) && !items[k].stale && items[k].status in statuses
  }

  /** Those that are parked, or whose machine is not current. */
  function Gone(items: seq<Item>, matches: Item -> bool): set<nat> {
    set k: nat | k < |items| && matches(items[k]) && (items[k].stale || items[k].status.Parked?)
  }

  function OfGroup(items: seq<Item>, g: Group, matches: Item -> bool): set<nat> {
    set k: nat | k < |items| && matches(items[k]) && GroupOf(items[k].status, items[k].stale) == g
  }

  lemma {:induction false} CountIsSize(items: seq<Item>, g: Group, matches: Item -> bool)
    ensures Count(items, g, matches) == |OfGroup(items, g, matches)|
  {
    if items != [] {
      CountIsSize(items[..|items| - 1], g, matches);
      LastOfGroup(items, g, matches);
    }
  }

  lemma LastOfGroup(items: seq<Item>, g: Group, matches: Item -> bool)
    requires items != []
    ensures var n: nat := |items| - 1;
            OfGroup(items, g, matches)
            == OfGroup(items[..n], g, matches)
               + if matches(items[n]) && GroupOf(items[n].status, items[n].stale) == g then {n} else {}
  {
    var n := |items| - 1;
    assert forall k | 0 <= k < n :: items[..n][k] == items[k];
  }

  /** What a summary counts: the matching rows that need the user, are at work or
      are ready, each while its machine is current, and all others as parked. */
  lemma CountsAreOfRows(items: seq<Item>, colors: bool, matches: Item -> bool, letters: char -> bool)
    ensures var s := Summarize(items, colors, matches, letters);
            && s.needsYou == |Fresh(items, {NeedsYou, Error, OpenTwiceNow, UnboundNow}, matches)|
            && s.working == |Fresh(items, {Working, Starting}, matches)|
            && s.ready == |Fresh(items, {ReadyNow}, matches)|
            && s.parked == |Gone(items, matches)|
            && s.colors == colors
  {
    CountIsSize(items, NeedsAttention, matches);
    CountIsSize(items, AtWork, matches);
    CountIsSize(items, AtRest, matches);
    CountIsSize(items, Away, matches);
    var needing := {NeedsYou, Error, OpenTwiceNow, UnboundNow};
    assert OfGroup(items, NeedsAttention, matches) == Fresh(items, needing, matches);
    assert OfGroup(items, AtWork, matches) == Fresh(items, {Working, Starting}, matches);
    assert OfGroup(items, AtRest, matches) == Fresh(items, {ReadyNow}, matches);
    assert OfGroup(items, Away, matches) == Gone(items, matches);
  }

  /** Every matching row is counted in exactly one group. */
  lemma {:induction false} CountsAddUp(items: seq<Item>, matches: Item -> bool)
    ensures Count(items, NeedsAttention, matches) + Count(items, AtWork, matches) + Count(items, AtRest, matches)
            + Count(items, Away, matches)
            == |Matching(items, matches)|
  {
    if items != [] { CountsAddUp(items[..|items| - 1], matches); }
  }

  function Matching(items: seq<Item>, matches: Item -> bool): seq<Item> {
    if items == [] then []
    else
      var others, i := Matching(items[..|items| - 1], matches), items[|items| - 1];
      if matches(i) then others + [i] else others
  }

  /** A summary of any board can go on the wire exactly when no count exceeds a
      million: its label is always safe and always backed by a count. */
  lemma SummariesAreValid(items: seq<Item>, colors: bool, matches: Item -> bool, letters: char -> bool)
    ensures var s := Summarize(items, colors, matches, letters);
            Valid(s, letters) <==>
              s.needsYou <= MAX_COUNT && s.working <= MAX_COUNT && s.ready <= MAX_COUNT && s.parked <= MAX_COUNT
  {
    GreatestIsGreatest(items, NeedsAttention, matches);
    GreatestIsGreatest(items, AtRest, matches);
    var needs, rests := Greatest(items, NeedsAttention, matches), Greatest(items, AtRest, matches);
    if needs.Some? {
      CountedIfThere(items, needs.value, NeedsAttention, matches);
      LabelIsSafe(needs.value, letters);
    } else if rests.Some? {
      CountedIfThere(items, rests.value, AtRest, matches);
      LabelIsSafe(rests.value, letters);
    }
  }

  lemma LabelIsSafe(i: Item, letters: char -> bool)
    ensures Safe(LabelOf(i, letters), letters)
  {
    var machine := if i.nodeName.Some? then i.nodeName else i.node;
    SafeLabelIsSafe(i.name + (if machine.Some? then " @" + machine.value else ""), letters);
  }

  /** A confirmed row, matching and of a current machine. */
  predicate Confirmed(i: Item, matches: Item -> bool) { matches(i) && !i.stale && !i.pending }

  predicate NeedsUser(i: Item, matches: Item -> bool) {
    Confirmed(i, matches) && i.status in {NeedsYou, Error, OpenTwiceNow, UnboundNow}
  }

  predicate IsReady(i: Item, matches: Item -> bool) { Confirmed(i, matches) && i.status.ReadyNow? }

  ghost predicate Any(items: seq<Item>, p: Item -> bool) { exists i | i in items :: p(i) }

  /** One of the rows with the property, and none of those comes after it. */
  ghost predicate LatestOf(items: seq<Item>, p: Item -> bool, i: Item) {
    i in items && p(i) && forall n | n in items && p(n) :: !Before(i, n)
  }

  lemma ComparesBothWays(a: Item, b: Item)
    ensures CompareItems(a, b) < 0 <==> CompareItems(b, a) > 0
    ensures CompareItems(b, a) < 0 <==> CompareItems(a, b) > 0
  {
    ComparesAllInOrder(Keys(a), Keys(b), Keys(a));
    ComparesAllInOrder(Keys(b), Keys(a), Keys(b));
  }

  lemma GreatestIsLatest(items: seq<Item>, g: Group, matches: Item -> bool, p: Item -> bool)
    requires forall i | i in items :: Calls(i, g, matches) <==> p(i)
    ensures var r := Greatest(items, g, matches);
            && (r.Some? <==> Any(items, p))
            && (r.Some? ==> LatestOf(items, p, r.value))
  {
    GreatestIsGreatest(items, g, matches);
    var r := Greatest(items, g, matches);
    if r.Some? {
      assert p(r.value);
      forall n | n in items && p(n) ensures !Before(r.value, n) {
        ComparedIsBefore(r.value, n);
        ComparesBothWays(n, r.value);
      }
    }
  }

  /** The label shown is that of the latest confirmed row that needs the user, or
      if there is none, of the latest one that is ready; and none is shown exactly
      when there is neither or that row has no safe label. The kind beside it says
      what is wrong with the row, or that it is merely ready. */
  lemma AttentionIsLatest(items: seq<Item>, matches: Item -> bool, letters: char -> bool)
    ensures var r := LatestAttention(items, matches, letters);
            var needs, ready := (i: Item) => NeedsUser(i, matches), (i: Item) => IsReady(i, matches);
            if Any(items, needs) then
              exists i :: LatestOf(items, needs, i)
                && (r.None? <==> LabelOf(i, letters) == "")
                && (r.Some? ==>
                      && r.value.0 == LabelOf(i, letters) && r.value.1 != Some(Ready)
                      && (r.value.1 == Some(OpenTwice) <==> i.status.OpenTwiceNow?)
                      && (r.value.1 == Some(Failed) <==> i.status.Error?)
                      && (r.value.1 == Some(Unbound) <==> i.status.UnboundNow?))
            else if Any(items, ready) then
              exists i :: LatestOf(items, ready, i)
                && (r.None? <==> LabelOf(i, letters) == "")
                && (r.Some? ==> r.value == (LabelOf(i, letters), Some(Ready)))
            else r == None
  {
    var needs, ready := (i: Item) => NeedsUser(i, matches), (i: Item) => IsReady(i, matches);
    GreatestIsLatest(items, NeedsAttention, matches, needs);
    GreatestIsLatest(items, AtRest, matches, ready);
    var n, r := Greatest(items, NeedsAttention, matches), Greatest(items, AtRest, matches);
    if n.Some? {
      assert LatestOf(items, needs, n.value);
    } else if r.Some? {
      assert LatestOf(items, ready, r.value);
    }
  }
}
