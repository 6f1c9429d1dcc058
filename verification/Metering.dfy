/** What an evaluation is charged, as a list of charges in the order they are
    made, and the meter that accepts or refuses them. */
module Metering {
  import opened Wrappers
  import opened Json
  import opened ToolLanguage

  const U64_MAX: nat := 0xFFFF_FFFF_FFFF_FFFF

  /** The host's in-memory slot for a value, whatever its size: the results only
      need that it is no smaller than this. */
  const LEAST_SLOT: nat := 7

  type Slot = n: nat | LEAST_SLOT <= n witness LEAST_SLOT

  /** The slots of an array item and of an object entry; any sizes do. */
  const VALUE_SLOT: Slot
  const ENTRY_SLOT: Slot

  /** What a number of slots takes. */
  function Slots(count: nat, slot: Slot): (bytes: nat)
    ensures bytes >= LEAST_SLOT * count
  {
    if count == 0 then 0 else slot + Slots(count - 1, slot)
  }

  lemma {:induction false} SlotsAreProduct(count: nat, slot: Slot)
    ensures Slots(count, slot) == count * slot
  {
    if count > 0 { SlotsAreProduct(count - 1, slot); }
  }

  datatype Charge =
    | Operation                       // one unit of fuel, one counted operation
    | Measured(size: nat, depth: nat) // a value is measured before it is copied
    | Bytes(count: nat)               // memory is charged

  datatype Meter = Meter(fuel: nat, memory: nat, operations: nat)

  /** `stop` is the first operation at which an expired deadline or a raised
      cancel flag is noticed, if there is one. */
  datatype Limits = Limits(memory: nat, stop: Option<nat>)

  predicate Accepts(c: Charge, m: Meter, lim: Limits) {
    match c
    case Operation => m.operations < U64_MAX && 0 < m.fuel && (lim.stop.Some? ==> m.operations + 1 < lim.stop.value)
    case Measured(size, depth) => depth <= MAX_VALUE_DEPTH && size <= lim.memory
    case Bytes(count) => m.memory + count <= U64_MAX && m.memory + count <= lim.memory
  }

  function Apply(c: Charge, m: Meter): Meter
    requires c.Operation? ==> 0 < m.fuel
  {
    match c
    case Operation => Meter(m.fuel - 1, m.memory, m.operations + 1)
    case Measured(_, _) => m
    case Bytes(count) => m.(memory := m.memory + count)
  }

  /** The meter after all charges, or nothing when one is refused. */
  function Replay(cs: seq<Charge>, m: Meter, lim: Limits): Option<Meter> {
    if cs == [] then Some(m)
    else if Accepts(cs[0], m, lim) then Replay(cs[1..], Apply(cs[0], m), lim)
    else None
  }

  lemma {:induction false} ReplayAppend(a: seq<Charge>, b: seq<Charge>, m: Meter, lim: Limits)
    ensures Replay(a + b, m, lim) ==
            match Replay(a, m, lim) case None => None case Some(mid) => Replay(b, mid, lim)
  {
    if a == [] {
      assert a + b == b;
    } else {
      assert (a + b)[1..] == a[1..] + b;
      if Accepts(a[0], m, lim) {
        ReplayAppend(a[1..], b, Apply(a[0], m), lim);
      }
    }
  }

  lemma ReplayOne(c: Charge, m: Meter, lim: Limits)
    ensures Replay([c], m, lim) == if Accepts(c, m, lim) then Some(Apply(c, m)) else None
  {
    if Accepts(c, m, lim) {
      assert Replay([c][1..], Apply(c, m), lim) == Some(Apply(c, m));
    }
  }

  // Totals.

  function Operations(cs: seq<Charge>): nat {
    if cs == [] then 0 else (if cs[0].Operation? then 1 else 0) + Operations(cs[1..])
  }

  function Memory(cs: seq<Charge>): nat {
    if cs == [] then 0 else (if cs[0].Bytes? then cs[0].count else 0) + Memory(cs[1..])
  }

  predicate Shallow(cs: seq<Charge>) {
    forall i | 0 <= i < |cs| :: cs[i].Measured? ==> cs[i].depth <= MAX_VALUE_DEPTH
  }

  predicate Small(cs: seq<Charge>, limit: nat) {
    forall i | 0 <= i < |cs| :: cs[i].Measured? ==> cs[i].size <= limit
  }

  lemma {:induction false} ReplayTotals(cs: seq<Charge>, m: Meter, lim: Limits)
    requires Replay(cs, m, lim).Some?
    ensures Operations(cs) <= m.fuel
    ensures Replay(cs, m, lim).value ==
            Meter(m.fuel - Operations(cs), m.memory + Memory(cs), m.operations + Operations(cs))
  {
    if cs != [] {
      ReplayTotals(cs[1..], Apply(cs[0], m), lim);
    }
  }

  /** Exactly when a list of charges is accepted, and what it leaves: nothing
      but the totals matters, so no charge is ever refused early. */
  predicate Affordable(cs: seq<Charge>, m: Meter, lim: Limits) {
    && Shallow(cs)
    && Small(cs, lim.memory)
    && Operations(cs) <= m.fuel
    && (Operations(cs) > 0 ==> m.operations + Operations(cs) <= U64_MAX)
    && (Operations(cs) > 0 && lim.stop.Some? ==> m.operations + Operations(cs) < lim.stop.value)
    && (Memory(cs) > 0 ==> m.memory + Memory(cs) <= U64_MAX && m.memory + Memory(cs) <= lim.memory)
  }

  lemma {:induction false} ReplayIsArithmetic(cs: seq<Charge>, m: Meter, lim: Limits)
    requires m.memory <= U64_MAX && m.memory <= lim.memory
    ensures Replay(cs, m, lim).Some? <==> Affordable(cs, m, lim)
    ensures Affordable(cs, m, lim) ==>
              Replay(cs, m, lim) ==
              Some(Meter(m.fuel - Operations(cs), m.memory + Memory(cs), m.operations + Operations(cs)))
  {
    if cs != [] {
      assert cs == [cs[0]] + cs[1..];
      if Accepts(cs[0], m, lim) {
        ReplayIsArithmetic(cs[1..], Apply(cs[0], m), lim);
      }
    }
  }

  lemma {:induction false} TotalsAppend(a: seq<Charge>, b: seq<Charge>)
    ensures Memory(a + b) == Memory(a) + Memory(b)
    ensures Operations(a + b) == Operations(a) + Operations(b)
  {
    if a == [] {
      assert a + b == b;
    } else {
      assert (a + b)[1..] == a[1..] + b;
      TotalsAppend(a[1..], b);
    }
  }

  // Charged evaluation: the charges made up to the answer, and the answer;
  // no answer when the definition misuses the language.

  datatype Trace<+T> = Trace(charges: seq<Charge>, answer: Option<T>)

  function CopyCharges(v: Value, depth: nat): seq<Charge>
    decreases v
  {
    [Operation, Measured(SizeOf(v), depth + DepthOf(v)), Bytes(SizeOf(v))] +
    match v
    case Arr(items) => [Bytes(Slots(|items|, VALUE_SLOT))] + CopyItems(items, depth + 1)
    case Obj(entries) => [Bytes(Slots(|entries|, ENTRY_SLOT))] + CopyEntries(entries, depth + 1)
    case _ => []
  }

  function CopyItems(items: seq<Value>, depth: nat): seq<Charge>
    decreases items
  {
    if items == [] then [] else CopyCharges(items[0], depth) + CopyItems(items[1..], depth)
  }

  function CopyEntries(entries: seq<Entry>, depth: nat): seq<Charge>
    decreases entries
  {
    if entries == [] then []
    else [Bytes(|entries[0].key|)] + CopyCharges(entries[0].value, depth) + CopyEntries(entries[1..], depth)
  }

  function Copied(v: Value): Trace<Value> { Trace(CopyCharges(v, 0), Some(v)) }

  function CopiedOrNull(v: Option<Value>): Trace<Value> {
    match v case Some(x) => Copied(x) case None => Trace([], Some(Null))
  }

  const MISPLACED: Trace<Value> := Trace([], None)

  function Evaluation(e: Expr, root: Value, current: Option<Value>): Trace<Value>
    decreases e, 2
  {
    var t := Dispatch(e, root, current);
    Trace([Operation] + t.charges + (if t.answer.Some? then [Bytes(0)] else []), t.answer)
  }

  function Dispatch(e: Expr, root: Value, current: Option<Value>): Trace<Value>
    decreases e, 1
  {
    match e
    case Input => Copied(root)
    case Current => if current.Some? then Copied(current.value) else MISPLACED
    case Field(path) => CopiedOrNull(Lookup(root, path))
    case CurrentField(path) => if current.Some? then CopiedOrNull(Lookup(current.value, path)) else MISPLACED
    case Literal(v) => Copied(v)
    case Map(input, body) =>
      var xs := EvaluatedArray(input, root, current);
      if xs.answer.None? then Trace(xs.charges, None) else
      Collected(xs, InOrder(MappedItems(body, root, xs.answer.value)))
    case Filter(input, keep) =>
      var xs := EvaluatedArray(input, root, current);
      if xs.answer.None? then Trace(xs.charges, None) else
      Collected(xs, InOrder(KeptItems(keep, root, xs.answer.value)))
    case Compare(op, left, right) =>
      var l := Evaluation(left, root, current);
      if l.answer.None? then l else
      var r := Evaluation(right, root, current);
      Trace(l.charges + r.charges,
            if r.answer.None? then r.answer else Comparison(op, l.answer.value, r.answer.value))
    case And(items) => AsBool(ShortCircuit(Evaluations(items, root, current), false))
    case Or(items) => AsBool(ShortCircuit(Evaluations(items, root, current), true))
    case Not(operand) =>
      var t := Evaluation(operand, root, current);
      if t.answer.None? then t else Trace(t.charges, Some(Bool(!Truthy(t.answer.value))))
  }

  function AsBool(t: Trace<bool>): Trace<Value> {
    Trace(t.charges, if t.answer.Some? then Some(Bool(t.answer.value)) else None)
  }

  function EvaluatedArray(e: Expr, root: Value, current: Option<Value>): Trace<seq<Value>>
    decreases e, 3
  {
    var t := Evaluation(e, root, current);
    Trace(t.charges,
          if t.answer.None? then None
          else if t.answer.value.Arr? then Some(t.answer.value.items)
          else None)
  }

  /** An array of results: the input's charges, a slot for each of its items,
      then the charges of the results. */
  function Collected(xs: Trace<seq<Value>>, ys: Trace<seq<Value>>): Trace<Value>
    requires xs.answer.Some?
  {
    Trace(xs.charges + [Bytes(Slots(|xs.answer.value|, VALUE_SLOT))] + ys.charges,
          if ys.answer.Some? then Some(Arr(ys.answer.value)) else None)
  }

  /** What one item contributes to a map: one value. */
  function MappedItem(body: Expr, root: Value, x: Value): Trace<seq<Value>>
    decreases body, 3
  {
    var t := Evaluation(body, root, Some(x));
    Trace(t.charges, if t.answer.Some? then Some([t.answer.value]) else None)
  }

  /** What one item contributes to a filter: nothing, or a copy of itself. */
  function KeptItem(keep: Expr, root: Value, x: Value): Trace<seq<Value>>
    decreases keep, 3
  {
    var flag := Evaluation(keep, root, Some(x));
    if flag.answer.None? then Trace(flag.charges, None)
    else if Truthy(flag.answer.value) then Trace(flag.charges + CopyCharges(x, 0), Some([x]))
    else Trace(flag.charges, Some([]))
  }

  function MappedItems(body: Expr, root: Value, xs: seq<Value>): seq<Trace<seq<Value>>>
    decreases body, 4
  {
    seq(|xs|, i requires 0 <= i < |xs| => MappedItem(body, root, xs[i]))
  }

  function KeptItems(keep: Expr, root: Value, xs: seq<Value>): seq<Trace<seq<Value>>>
    decreases keep, 4
  {
    seq(|xs|, i requires 0 <= i < |xs| => KeptItem(keep, root, xs[i]))
  }

  function Evaluations(items: seq<Expr>, root: Value, current: Option<Value>): seq<Trace<Value>>
    decreases items, 0
  {
    seq(|items|, i requires 0 <= i < |items| => Evaluation(items[i], root, current))
  }

  /** One contribution after another, up to the first that has no answer. */
  function InOrder(ts: seq<Trace<seq<Value>>>): Trace<seq<Value>> {
    if ts == [] then Trace([], Some([]))
    else if ts[0].answer.None? then ts[0]
    else
      var rest := InOrder(ts[1..]);
      Trace(ts[0].charges + rest.charges,
            if rest.answer.Some? then Some(ts[0].answer.value + rest.answer.value) else None)
  }

  /** One evaluation after another, up to the first that settles the whole. */
  function ShortCircuit(ts: seq<Trace<Value>>, settles: bool): Trace<bool> {
    if ts == [] then Trace([], Some(!settles))
    else if ts[0].answer.None? then Trace(ts[0].charges, None)
    else if Truthy(ts[0].answer.value) == settles then Trace(ts[0].charges, Some(settles))
    else
      var rest := ShortCircuit(ts[1..], settles);
      Trace(ts[0].charges + rest.charges, rest.answer)
  }

  // The charged evaluation answers what the expression means.

  lemma {:induction false} AnswerIsMeaning(e: Expr, root: Value, current: Option<Value>)
    ensures Evaluation(e, root, current).answer == Meaning(e, root, current)
    decreases e, 2
  {
    match e
    case Map(_, _) => ItemsMean(e, root, current);
    case Filter(_, _) => ItemsMean(e, root, current);
    case _ => DispatchMeans(e, root, current);
  }

  lemma {:induction false} ItemsMean(e: Expr, root: Value, current: Option<Value>)
    requires e.Map? || e.Filter?
    ensures Dispatch(e, root, current).answer == Meaning(e, root, current)
    decreases e, 1
  {
    AnswerIsMeaning(e.input, root, current);
    var xs := EvaluatedArray(e.input, root, current).answer;
    if xs.Some? {
      if e.Map? { MapMeans(e.body, root, xs.value); } else { FilterMeans(e.predicate_, root, xs.value); }
    }
  }

  lemma {:induction false} DispatchMeans(e: Expr, root: Value, current: Option<Value>)
    requires !e.Map? && !e.Filter?
    ensures Dispatch(e, root, current).answer == Meaning(e, root, current)
    decreases e, 1
  {
    match e
    case Compare(op, left, right) =>
      AnswerIsMeaning(left, root, current);
      AnswerIsMeaning(right, root, current);
    case And(items) => LogicMeans(items, root, current, false);
    case Or(items) => LogicMeans(items, root, current, true);
    case Not(operand) => AnswerIsMeaning(operand, root, current);
    case _ =>
  }

  lemma MapMeans(body: Expr, root: Value, xs: seq<Value>)
    ensures InOrder(MappedItems(body, root, xs)).answer == Collect(MeaningsOver(body, root, xs))
    decreases body, 3
  {
    var ts, answers := MappedItems(body, root, xs), MeaningsOver(body, root, xs);
    forall i | 0 <= i < |xs|
      ensures ts[i].answer == if answers[i].Some? then Some([answers[i].value]) else None
    {
      AnswerIsMeaning(body, root, Some(xs[i]));
      assert ts[i] == MappedItem(body, root, xs[i]) && answers[i] == Meaning(body, root, Some(xs[i]));
    }
    InOrderCollects(ts, answers);
  }

  lemma FilterMeans(keep: Expr, root: Value, xs: seq<Value>)
    ensures var flags := Collect(MeaningsOver(keep, root, xs));
            InOrder(KeptItems(keep, root, xs)).answer == if flags.Some? then Some(Select(xs, flags.value)) else None
    decreases keep, 3
  {
    var ts, answers := KeptItems(keep, root, xs), MeaningsOver(keep, root, xs);
    forall i | 0 <= i < |xs|
      ensures ts[i].answer == if answers[i].None? then None else if Truthy(answers[i].value) then Some([xs[i]])
              else Some([])
    {
      AnswerIsMeaning(keep, root, Some(xs[i]));
      assert ts[i] == KeptItem(keep, root, xs[i]) && answers[i] == Meaning(keep, root, Some(xs[i]));
    }
    InOrderSelects(ts, answers, xs);
  }

  lemma LogicMeans(items: seq<Expr>, root: Value, current: Option<Value>, settles: bool)
    ensures ShortCircuit(Evaluations(items, root, current), settles).answer
            == Decide(MeaningsOf(items, root, current), settles)
    decreases items, 0
  {
    forall i | 0 <= i < |items|
      ensures Evaluations(items, root, current)[i].answer == MeaningsOf(items, root, current)[i]
    {
      AnswerIsMeaning(items[i], root, current);
    }
    ShortCircuitDecides(Evaluations(items, root, current), MeaningsOf(items, root, current), settles);
  }

  lemma {:induction false} CollectCons(answers: seq<Option<Value>>)
    requires answers != []
    ensures Collect(answers) ==
            if answers[0].None? || Collect(answers[1..]).None? then None
            else Some([answers[0].value] + Collect(answers[1..]).value)
  {
    if answers[0].Some? && Collect(answers[1..]).Some? {
      forall i | 0 <= i < |answers| ensures answers[i].Some? {
        if i > 0 { assert answers[1..][i - 1].Some?; }
      }
      assert Collect(answers).value == [answers[0].value] + Collect(answers[1..]).value;
    } else if Collect(answers[1..]).None? {
      var i :| 0 <= i < |answers[1..]| && answers[1..][i].None?;
      assert answers[i + 1].None?;
    }
  }

  lemma {:induction false} InOrderCollects(ts: seq<Trace<seq<Value>>>, answers: seq<Option<Value>>)
    requires |ts| == |answers|
    requires forall i | 0 <= i < |ts| ::
               ts[i].answer == if answers[i].Some? then Some([answers[i].value]) else None
    ensures InOrder(ts).answer == Collect(answers)
  {
    if ts == [] {
      assert Collect(answers).value == [];
    } else {
      CollectCons(answers);
      InOrderCollects(ts[1..], answers[1..]);
    }
  }

  lemma {:induction false} InOrderSelects(ts: seq<Trace<seq<Value>>>, answers: seq<Option<Value>>, xs: seq<Value>)
    requires |ts| == |answers| == |xs|
    requires forall i | 0 <= i < |ts| ::
               ts[i].answer == if answers[i].None? then None else if Truthy(answers[i].value) then Some([xs[i]])
                 else Some([])
    ensures var flags := Collect(answers);
            InOrder(ts).answer == if flags.Some? then Some(Select(xs, flags.value)) else None
  {
    if ts != [] {
      CollectCons(answers);
      InOrderSelects(ts[1..], answers[1..], xs[1..]);
      var flags := Collect(answers);
      if flags.Some? {
        assert flags.value[1..] == Collect(answers[1..]).value;
      }
    }
  }

  lemma {:induction false} ShortCircuitDecides(ts: seq<Trace<Value>>, answers: seq<Option<Value>>, settles: bool)
    requires |ts| == |answers| && forall i | 0 <= i < |ts| :: ts[i].answer == answers[i]
    ensures ShortCircuit(ts, settles).answer == Decide(answers, settles)
  {
    if ts != [] {
      ShortCircuitDecides(ts[1..], answers[1..], settles);
    }
  }

  // The memory charged for an evaluation bounds the value it answers.

  lemma {:induction false} CopyChargesCoverSize(v: Value, depth: nat)
    ensures SizeOf(v) <= Memory(CopyCharges(v, depth))
  {
    var head := [Operation, Measured(SizeOf(v), depth + DepthOf(v)), Bytes(SizeOf(v))];
    assert Memory(head) == SizeOf(v) by {
      assert head[1..] == [Measured(SizeOf(v), depth + DepthOf(v)), Bytes(SizeOf(v))];
      assert head[1..][1..] == [Bytes(SizeOf(v))];
      assert Memory([Bytes(SizeOf(v))]) == SizeOf(v);
    }
    TotalsAppend(head, CopyCharges(v, depth)[3..]);
    assert CopyCharges(v, depth) == head + CopyCharges(v, depth)[3..];
  }

  /** What surrounds every evaluation charges no memory. */
  lemma WrappedCost(charges: seq<Charge>)
    ensures Memory([Operation] + charges + [Bytes(0)]) == Memory(charges)
  {
    TotalsAppend([Operation] + charges, [Bytes(0)]);
    TotalsAppend([Operation], charges);
  }

  lemma {:induction false} MemoryBoundsAnswer(e: Expr, root: Value, current: Option<Value>)
    ensures var t := Evaluation(e, root, current);
            t.answer.Some? ==> SizeOf(t.answer.value) <= Memory(t.charges) + 5
    decreases e, 3
  {
    WrappedCost(Dispatch(e, root, current).charges);
    DispatchBounded(e, root, current);
  }

  lemma {:induction false} DispatchBounded(e: Expr, root: Value, current: Option<Value>)
    ensures var t := Dispatch(e, root, current);
            t.answer.Some? ==> SizeOf(t.answer.value) <= Memory(t.charges) + 5
    decreases e, 2
  {
    match e
    case Input => CopyChargesCoverSize(root, 0);
    case Current => if current.Some? { CopyChargesCoverSize(current.value, 0); }
    case Field(path) => CopiedOrNullBounded(Lookup(root, path));
    case CurrentField(path) => if current.Some? { CopiedOrNullBounded(Lookup(current.value, path)); }
    case Literal(v) => CopyChargesCoverSize(v, 0);
    case Map(input, body) =>
      var xs := EvaluatedArray(input, root, current);
      if xs.answer.Some? {
        MapBounded(body, root, xs.answer.value);
        CollectedBounded(xs, InOrder(MappedItems(body, root, xs.answer.value)));
      }
    case Filter(input, keep) =>
      var xs := EvaluatedArray(input, root, current);
      if xs.answer.Some? {
        FilterBounded(keep, root, xs.answer.value);
        CollectedBounded(xs, InOrder(KeptItems(keep, root, xs.answer.value)));
      }
    case _ =>
  }

  /** The slots pay for what each item may exceed its own charges by. */
  lemma CollectedBounded(xs: Trace<seq<Value>>, ys: Trace<seq<Value>>)
    requires xs.answer.Some?
    requires ys.answer.Some? ==> ItemsSize(ys.answer.value) <= Memory(ys.charges) + 5 * |xs.answer.value|
    ensures var t := Collected(xs, ys); t.answer.Some? ==> SizeOf(t.answer.value) <= Memory(t.charges) + 5
  {
    SlotsCounted(xs.charges, |xs.answer.value|, ys.charges);
  }

  lemma CopiedOrNullBounded(v: Option<Value>)
    ensures SizeOf(OrNull(v)) <= Memory(CopiedOrNull(v).charges) + 5
  {
    if v.Some? { CopyChargesCoverSize(v.value, 0); }
  }

  lemma SlotsCounted(before: seq<Charge>, count: nat, after: seq<Charge>)
    ensures Memory(before + [Bytes(Slots(count, VALUE_SLOT))] + after) >= Slots(count, VALUE_SLOT) + Memory(after)
  {
    TotalsAppend(before + [Bytes(Slots(count, VALUE_SLOT))], after);
    TotalsAppend(before, [Bytes(Slots(count, VALUE_SLOT))]);
    assert Memory([Bytes(Slots(count, VALUE_SLOT))]) == Slots(count, VALUE_SLOT);
  }

  lemma {:induction false} ItemsSizeAppend(a: seq<Value>, b: seq<Value>)
    ensures ItemsSize(a + b) == ItemsSize(a) + ItemsSize(b)
  {
    if a == [] {
      assert a + b == b;
    } else {
      assert (a + b)[1..] == a[1..] + b;
      ItemsSizeAppend(a[1..], b);
    }
  }

  /** An answer no larger than what was charged for it, up to five units. */
  ghost predicate Covered(t: Trace<seq<Value>>) {
    t.answer.Some? ==> ItemsSize(t.answer.value) <= Memory(t.charges) + 5
  }

  lemma MapBounded(body: Expr, root: Value, xs: seq<Value>)
    ensures var t := InOrder(MappedItems(body, root, xs));
            t.answer.Some? ==> ItemsSize(t.answer.value) <= Memory(t.charges) + 5 * |xs|
    decreases body, 4
  {
    var ts := MappedItems(body, root, xs);
    forall i | 0 <= i < |xs| ensures Covered(ts[i]) {
      MemoryBoundsAnswer(body, root, Some(xs[i]));
      assert ts[i] == MappedItem(body, root, xs[i]);
    }
    InOrderBounded(ts);
  }

  lemma FilterBounded(keep: Expr, root: Value, xs: seq<Value>)
    ensures var t := InOrder(KeptItems(keep, root, xs));
            t.answer.Some? ==> ItemsSize(t.answer.value) <= Memory(t.charges) + 5 * |xs|
  {
    var ts := KeptItems(keep, root, xs);
    forall i | 0 <= i < |xs| ensures Covered(ts[i]) {
      CopyChargesCoverSize(xs[i], 0);
      TotalsAppend(Evaluation(keep, root, Some(xs[i])).charges, CopyCharges(xs[i], 0));
      assert ts[i] == KeptItem(keep, root, xs[i]);
    }
    InOrderBounded(ts);
  }

  lemma {:induction false} InOrderBounded(ts: seq<Trace<seq<Value>>>)
    requires forall i | 0 <= i < |ts| :: Covered(ts[i])
    ensures InOrder(ts).answer.Some? ==>
              ItemsSize(InOrder(ts).answer.value) <= Memory(InOrder(ts).charges) + 5 * |ts|
  {
    if ts != [] && ts[0].answer.Some? {
      var rest := InOrder(ts[1..]);
      InOrderBounded(ts[1..]);
      TotalsAppend(ts[0].charges, rest.charges);
      if rest.answer.Some? {
        ItemsSizeAppend(ts[0].answer.value, rest.answer.value);
        assert Covered(ts[0]);
      }
    }
  }

  // The operations counted for an evaluation bound what it answers, too.

  /** A value and all values inside it. */
  function Nodes(v: Value): (n: nat)
    ensures n >= 1
  {
    match v
    case Arr(items) => 1 + ItemNodes(items)
    case Obj(entries) => 1 + EntryNodes(entries)
    case _ => 1
  }

  function ItemNodes(items: seq<Value>): nat {
    if items == [] then 0 else Nodes(items[0]) + ItemNodes(items[1..])
  }

  function EntryNodes(entries: seq<Entry>): nat {
    if entries == [] then 0 else Nodes(entries[0].value) + EntryNodes(entries[1..])
  }

  lemma HeadCountsOne(size: nat, depth: nat, rest: seq<Charge>)
    ensures Operations([Operation, Measured(size, depth), Bytes(size)] + rest) == 1 + Operations(rest)
  {
    var head := [Operation, Measured(size, depth), Bytes(size)];
    assert head[1..] == [Measured(size, depth), Bytes(size)] && head[1..][1..] == [Bytes(size)];
    assert Operations([Bytes(size)]) == 0;
    assert Operations(head) == 1;
    TotalsAppend(head, rest);
  }

  lemma NoneCounted(bytes: nat, rest: seq<Charge>)
    ensures Operations([Bytes(bytes)] + rest) == Operations(rest)
  {
    TotalsAppend([Bytes(bytes)], rest);
    assert Operations([Bytes(bytes)]) == 0;
  }

  /** A copy counts one operation for each value in it. */
  lemma {:induction false} CopyCountsNodes(v: Value, depth: nat)
    ensures Operations(CopyCharges(v, depth)) == Nodes(v)
    decreases v
  {
    match v
    case Arr(items) =>
      CopyItemsCount(items, depth + 1);
      NoneCounted(Slots(|items|, VALUE_SLOT), CopyItems(items, depth + 1));
      HeadCountsOne(SizeOf(v), depth + DepthOf(v), [Bytes(Slots(|items|, VALUE_SLOT))] + CopyItems(items, depth + 1));
    case Obj(entries) =>
      CopyEntriesCount(entries, depth + 1);
      NoneCounted(Slots(|entries|, ENTRY_SLOT), CopyEntries(entries, depth + 1));
      HeadCountsOne(
        SizeOf(v), depth + DepthOf(v), [Bytes(Slots(|entries|, ENTRY_SLOT))] + CopyEntries(entries, depth + 1));
    case _ => HeadCountsOne(SizeOf(v), depth + DepthOf(v), []);
  }

  lemma {:induction false} CopyItemsCount(items: seq<Value>, depth: nat)
    ensures Operations(CopyItems(items, depth)) == ItemNodes(items)
    decreases items
  {
    if items != [] {
      CopyCountsNodes(items[0], depth);
      CopyItemsCount(items[1..], depth);
      TotalsAppend(CopyCharges(items[0], depth), CopyItems(items[1..], depth));
    }
  }

  lemma {:induction false} CopyEntriesCount(entries: seq<Entry>, depth: nat)
    ensures Operations(CopyEntries(entries, depth)) == EntryNodes(entries)
    decreases entries
  {
    if entries != [] {
      var copy := CopyCharges(entries[0].value, depth);
      CopyCountsNodes(entries[0].value, depth);
      CopyEntriesCount(entries[1..], depth);
      NoneCounted(|entries[0].key|, copy);
      TotalsAppend([Bytes(|entries[0].key|)] + copy, CopyEntries(entries[1..], depth));
    }
  }

  /** What surrounds every evaluation counts one operation. */
  lemma WrappedCount(charges: seq<Charge>)
    ensures Operations([Operation] + charges + [Bytes(0)]) == 1 + Operations(charges)
    ensures Operations([Operation] + charges) == 1 + Operations(charges)
  {
    TotalsAppend([Operation] + charges, [Bytes(0)]);
    TotalsAppend([Operation], charges);
    assert Operations([Operation]) == 1 && Operations([Bytes(0)]) == 0;
  }

  /** However an expression is evaluated, at least one operation is counted, and
      at least one for each value in its answer. */
  lemma {:induction false} OperationsBoundAnswer(e: Expr, root: Value, current: Option<Value>)
    ensures var t := Evaluation(e, root, current);
            && Operations(t.charges) >= 1
            && (t.answer.Some? ==> Nodes(t.answer.value) <= Operations(t.charges))
    decreases e, 3
  {
    WrappedCount(Dispatch(e, root, current).charges);
    DispatchCounted(e, root, current);
  }

  lemma CopiedCounts(v: Option<Value>)
    ensures Nodes(OrNull(v)) <= Operations(CopiedOrNull(v).charges) + 1
  {
    if v.Some? { CopyCountsNodes(v.value, 0); }
  }

  lemma {:induction false} DispatchCounted(e: Expr, root: Value, current: Option<Value>)
    ensures var t := Dispatch(e, root, current);
            t.answer.Some? ==> Nodes(t.answer.value) <= Operations(t.charges) + 1
    decreases e, 2
  {
    match e
    case Input => CopyCountsNodes(root, 0);
    case Current => if current.Some? { CopyCountsNodes(current.value, 0); }
    case Field(path) => CopiedCounts(Lookup(root, path));
    case CurrentField(path) => if current.Some? { CopiedCounts(Lookup(current.value, path)); }
    case Literal(v) => CopyCountsNodes(v, 0);
    case Map(input, body) =>
      var xs := EvaluatedArray(input, root, current);
      if xs.answer.Some? {
        MapCounted(body, root, xs.answer.value);
        CollectedCounted(xs, InOrder(MappedItems(body, root, xs.answer.value)));
      }
    case Filter(input, keep) =>
      var xs := EvaluatedArray(input, root, current);
      if xs.answer.Some? {
        FilterCounted(keep, root, xs.answer.value);
        CollectedCounted(xs, InOrder(KeptItems(keep, root, xs.answer.value)));
      }
    case _ =>
  }

  lemma CollectedCounted(xs: Trace<seq<Value>>, ys: Trace<seq<Value>>)
    requires xs.answer.Some? && Counted(ys)
    ensures var t := Collected(xs, ys); t.answer.Some? ==> Nodes(t.answer.value) <= Operations(t.charges) + 1
  {
    TotalsAppend(xs.charges + [Bytes(Slots(|xs.answer.value|, VALUE_SLOT))], ys.charges);
  }

  ghost predicate Counted(t: Trace<seq<Value>>) {
    t.answer.Some? ==> ItemNodes(t.answer.value) <= Operations(t.charges)
  }

  lemma MapCounted(body: Expr, root: Value, xs: seq<Value>)
    ensures Counted(InOrder(MappedItems(body, root, xs)))
    decreases body, 4
  {
    var ts := MappedItems(body, root, xs);
    forall i | 0 <= i < |xs| ensures Counted(ts[i]) {
      OperationsBoundAnswer(body, root, Some(xs[i]));
      assert ts[i] == MappedItem(body, root, xs[i]);
    }
    InOrderCounted(ts);
  }

  lemma FilterCounted(keep: Expr, root: Value, xs: seq<Value>)
    ensures Counted(InOrder(KeptItems(keep, root, xs)))
  {
    var ts := KeptItems(keep, root, xs);
    forall i | 0 <= i < |xs| ensures Counted(ts[i]) {
      CopyCountsNodes(xs[i], 0);
      TotalsAppend(Evaluation(keep, root, Some(xs[i])).charges, CopyCharges(xs[i], 0));
      assert ts[i] == KeptItem(keep, root, xs[i]);
    }
    InOrderCounted(ts);
  }

  lemma {:induction false} ItemNodesAppend(a: seq<Value>, b: seq<Value>)
    ensures ItemNodes(a + b) == ItemNodes(a) + ItemNodes(b)
  {
    if a == [] {
      assert a + b == b;
    } else {
      assert (a + b)[1..] == a[1..] + b;
      ItemNodesAppend(a[1..], b);
    }
  }

  lemma {:induction false} InOrderCounted(ts: seq<Trace<seq<Value>>>)
    requires forall i | 0 <= i < |ts| :: Counted(ts[i])
    ensures Counted(InOrder(ts))
  {
    if ts != [] && ts[0].answer.Some? {
      var rest := InOrder(ts[1..]);
      InOrderCounted(ts[1..]);
      TotalsAppend(ts[0].charges, rest.charges);
      if rest.answer.Some? {
        ItemNodesAppend(ts[0].answer.value, rest.answer.value);
        assert Counted(ts[0]);
      }
    }
  }
}
