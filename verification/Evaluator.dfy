/** The metered interpreter as it runs: one budget, updated in place, checked
    and charged at every step. */
module Evaluator {
  import opened Wrappers
  import opened Json
  import opened ToolLanguage
  import opened Metering

  /** What a run that started at `before` must do: refuse exactly when some
      charge is refused, otherwise give the trace's answer and leave the meter
      where the charges leave it. */
  ghost predicate Follows<T(!new)>(r: Result<T, Error>, t: Trace<T>, before: Meter, after: Meter, lim: Limits) {
    match Replay(t.charges, before, lim)
    case None => r == Err(Limit)
    case Some(m) =>
      if t.answer.Some? then r == Ok(t.answer.value) && after == m else r == Err(InvalidDefinition)
  }

  /** What `Budget.Eval` promises says this: an answer is what the expression
      means, a refusal for misuse is a refusal of the reference too, every
      operation costs one unit of fuel, and the memory charged during the call
      covers the answer up to five units. */
  lemma EvaluationIsSound(e: Expr, root: Value, current: Option<Value>, r: Result<Value, Error>, before: Meter,
      after: Meter, lim: Limits)
    requires Follows(r, Evaluation(e, root, current), before, after, lim)
    ensures r.Ok? ==> Meaning(e, root, current) == Some(r.value)
    ensures r.Ok? ==> SizeOf(r.value) <= after.memory - before.memory + 5
    ensures r.Ok? ==> before.fuel - after.fuel == after.operations - before.operations
    ensures r == Err(InvalidDefinition) ==> Meaning(e, root, current) == None
  {
    AnswerIsMeaning(e, root, current);
    MemoryBoundsAnswer(e, root, current);
    var cs := Evaluation(e, root, current).charges;
    if Replay(cs, before, lim).Some? {
      ReplayTotals(cs, before, lim);
    }
  }

  ghost function Slotted(xs: Trace<seq<Value>>): Trace<seq<Value>> {
    if xs.answer.None? then xs
    else Trace(xs.charges + [Bytes(Slots(|xs.answer.value|, VALUE_SLOT))], xs.answer)
  }

  /** After i of the contributions, with `out` collected, what is left to do
      decides the whole exactly as the whole did at the start. */
  ghost predicate Progress(ts: seq<Trace<seq<Value>>>, i: nat, out: seq<Value>, start: Meter, now: Meter, lim: Limits)
    requires i <= |ts|
  {
    var whole, rest := InOrder(ts), InOrder(ts[i..]);
    && Replay(whole.charges, start, lim) == Replay(rest.charges, now, lim)
    && (whole.answer.Some? <==> rest.answer.Some?)
    && (whole.answer.Some? ==> whole.answer.value == out + rest.answer.value)
  }

  lemma ProgressStep(ts: seq<Trace<seq<Value>>>, i: nat, out: seq<Value>, start: Meter, now: Meter, lim: Limits)
    requires i < |ts| && Progress(ts, i, out, start, now, lim)
    ensures match Replay(ts[i].charges, now, lim)
            case None => Replay(InOrder(ts).charges, start, lim) == None
            case Some(next) =>
              if ts[i].answer.Some? then Progress(ts, i + 1, out + ts[i].answer.value, start, next, lim)
              else Replay(InOrder(ts).charges, start, lim).Some? && InOrder(ts).answer.None?
  {
    var rest := ts[i..];
    assert rest[0] == ts[i] && rest[1..] == ts[i + 1..];
    ReplayAppend(rest[0].charges, InOrder(rest[1..]).charges, now, lim);
    if ts[i].answer.Some? && InOrder(rest[1..]).answer.Some? {
      assert out + ts[i].answer.value + InOrder(rest[1..]).answer.value
          == out + (ts[i].answer.value + InOrder(rest[1..]).answer.value);
    }
  }

  lemma ProgressEnd(ts: seq<Trace<seq<Value>>>, out: seq<Value>, start: Meter, now: Meter, lim: Limits)
    requires Progress(ts, |ts|, out, start, now, lim)
    ensures Follows(Ok(out), InOrder(ts), start, now, lim)
  {
    assert ts[|ts|..] == [];
    assert out + [] == out;
  }

  class Budget {
    var fuel: nat
    var memory: nat
    var operations: nat
    const limits: Limits

    ghost function State(): Meter
      reads this
    {
      Meter(fuel, memory, operations)
    }

    constructor (fuel: nat, limits: Limits)
      ensures State() == Meter(fuel, 0, 0) && this.limits == limits
    {
      this.fuel, this.memory, this.operations := fuel, 0, 0;
      this.limits := limits;
    }

    method Check() returns (r: Result<(), Error>)
      modifies this
      ensures Follows(r, Trace([Operation], Some(())), old(State()), State(), limits)
    {
      ReplayOne(Operation, State(), limits);
      if operations >= U64_MAX {
        return Err(Limit);
      }
      operations := operations + 1;
      if fuel < 1 {
        return Err(Limit);
      }
      fuel := fuel - 1;
      if limits.stop.Some? && limits.stop.value <= operations {
        return Err(Limit);
      }
      r := Ok(());
    }

    method Charge(bytes: nat) returns (r: Result<(), Error>)
      modifies this
      ensures Follows(r, Trace([Bytes(bytes)], Some(())), old(State()), State(), limits)
    {
      ReplayOne(Bytes(bytes), State(), limits);
      if memory + bytes > U64_MAX {
        return Err(Limit);
      }
      memory := memory + bytes;
      if memory > limits.memory {
        return Err(Limit);
      }
      r := Ok(());
    }

    /** Pays for a number of slots: their product with the slot's size. */
    method ChargeSlots(count: nat, slot: Slot) returns (r: Result<(), Error>)
      modifies this
      ensures Follows(r, Trace([Bytes(Slots(count, slot))], Some(())), old(State()), State(), limits)
    {
      SlotsAreProduct(count, slot);
      r := Charge(count * slot);
    }

    /** Copies a value item by item, paying for each; the copy is the value. */
    method CloneValue(v: Value, depth: nat) returns (r: Result<Value, Error>)
      modifies this
      ensures Follows(r, Trace(CopyCharges(v, depth), Some(v)), old(State()), State(), limits)
      decreases v, 1
    {
      ghost var start := State();
      ghost var price := [Operation, Measured(SizeOf(v), depth + DepthOf(v)), Bytes(SizeOf(v))];
      assert price == [Operation] + [Measured(SizeOf(v), depth + DepthOf(v))] + [Bytes(SizeOf(v))];
      assert CopyCharges(v, depth) == price + CopyCharges(v, depth)[3..];
      ReplayAppend(price, CopyCharges(v, depth)[3..], start, limits);
      ReplayAppend([Operation] + [Measured(SizeOf(v), depth + DepthOf(v))], [Bytes(SizeOf(v))], start, limits);
      ReplayAppend([Operation], [Measured(SizeOf(v), depth + DepthOf(v))], start, limits);
      var _ :- Check();
      var estimate :- MeasureValue(v, depth, limits.memory);
      var _ :- Charge(estimate);
      match v {
      case Arr(items) => r := CloneItems(v, depth);
      case Obj(entries) => r := CloneEntries(v, depth);
      case Null => r := Ok(Null);
      case Bool(flag) => r := Ok(Bool(flag));
      case Num(number) => r := Ok(Num(number));
      case Str(text) => r := Ok(Str(text));
      }
    }

    method CloneItems(v: Value, depth: nat) returns (r: Result<Value, Error>)
      requires v.Arr?
      modifies this
      ensures Follows(r, Trace([Bytes(Slots(|v.items|, VALUE_SLOT))] + CopyItems(v.items, depth + 1), Some(v)),
              old(State()), State(), limits)
      decreases v, 0
    {
      ghost var start := State();
      ReplayAppend([Bytes(Slots(|v.items|, VALUE_SLOT))], CopyItems(v.items, depth + 1), start, limits);
      var _ :- ChargeSlots(|v.items|, VALUE_SLOT);
      label paid:
      var copies: seq<Value> := [];
      while |copies| < |v.items|
        invariant copies <= v.items
        invariant Replay(CopyItems(v.items, depth + 1), old@paid(State()), limits)
               == Replay(CopyItems(v.items[|copies|..], depth + 1), State(), limits)
      {
        var rest := v.items[|copies|..];
        assert v.items[|copies| + 1..] == rest[1..];
        ReplayAppend(CopyCharges(rest[0], depth + 1), CopyItems(rest[1..], depth + 1), State(), limits);
        var copy :- CloneValue(v.items[|copies|], depth + 1);
        copies := copies + [copy];
      }
      assert v.items[|copies|..] == [];
      assert copies == v.items;
      r := Ok(Arr(copies));
    }

    method CloneEntries(v: Value, depth: nat) returns (r: Result<Value, Error>)
      requires v.Obj?
      modifies this
      ensures Follows(r, Trace([Bytes(Slots(|v.entries|, ENTRY_SLOT))] + CopyEntries(v.entries, depth + 1), Some(v)),
              old(State()), State(), limits)
      decreases v, 0
    {
      ghost var start := State();
      ReplayAppend([Bytes(Slots(|v.entries|, ENTRY_SLOT))], CopyEntries(v.entries, depth + 1), start, limits);
      var _ :- ChargeSlots(|v.entries|, ENTRY_SLOT);
      label paid:
      var copies: seq<Entry> := [];
      while |copies| < |v.entries|
        invariant copies <= v.entries
        invariant Replay(CopyEntries(v.entries, depth + 1), old@paid(State()), limits)
               == Replay(CopyEntries(v.entries[|copies|..], depth + 1), State(), limits)
      {
        var rest := v.entries[|copies|..];
        var entry := v.entries[|copies|];
        assert v.entries[|copies| + 1..] == rest[1..];
        ReplayAppend([Bytes(|entry.key|)] + CopyCharges(entry.value, depth + 1), CopyEntries(rest[1..], depth + 1),
          State(), limits);
        ReplayAppend([Bytes(|entry.key|)], CopyCharges(entry.value, depth + 1), State(), limits);
        var _ :- Charge(|entry.key|);
        var copy :- CloneValue(entry.value, depth + 1);
        copies := copies + [Entry(entry.key, copy)];
      }
      assert v.entries[|copies|..] == [];
      assert copies == v.entries;
      r := Ok(Obj(copies));
    }

    method Eval(e: Expr, root: Value, current: Option<Value>) returns (r: Result<Value, Error>)
      modifies this
      ensures Follows(r, Evaluation(e, root, current), old(State()), State(), limits)
      decreases e, 2
    {
      ghost var inner := Dispatch(e, root, current);
      ghost var tail := if inner.answer.Some? then [Bytes(0)] else [];
      ReplayAppend([Operation] + inner.charges, tail, State(), limits);
      ReplayAppend([Operation], inner.charges, State(), limits);
      var _ :- Check();
      var result :- EvalInner(e, root, current);
      var _ :- Charge(0);
      r := Ok(result);
    }

    method EvalInner(e: Expr, root: Value, current: Option<Value>) returns (r: Result<Value, Error>)
      modifies this
      ensures Follows(r, Dispatch(e, root, current), old(State()), State(), limits)
      decreases e, 1
    {
      match e {
      case Map(_, _) => r := EvalMap(e, root, current);
      case Filter(_, _) => r := EvalFilter(e, root, current);
      case Compare(op, left, right) => r := EvalCompare(e, root, current);
      case And(items) => r := EvalItems(e, items, root, current, false);
      case Or(items) => r := EvalItems(e, items, root, current, true);
      case Not(operand) =>
        var v :- Eval(operand, root, current);
        r := Ok(Bool(!Truthy(v)));
      case _ => r := EvalAtom(e, root, current);
      }
    }

    method EvalAtom(e: Expr, root: Value, current: Option<Value>) returns (r: Result<Value, Error>)
      requires e.Input? || e.Current? || e.Field? || e.CurrentField? || e.Literal?
      modifies this
      ensures Follows(r, Dispatch(e, root, current), old(State()), State(), limits)
    {
      match e {
      case Input => r := CloneValue(root, 0);
      case Current =>
        if current.None? { return Err(InvalidDefinition); }
        r := CloneValue(current.value, 0);
      case Field(path) => r := CloneLookup(Lookup(root, path));
      case CurrentField(path) =>
        if current.None? { return Err(InvalidDefinition); }
        r := CloneLookup(Lookup(current.value, path));
      case Literal(v) => r := CloneValue(v, 0);
      }
    }

    method CloneLookup(v: Option<Value>) returns (r: Result<Value, Error>)
      modifies this
      ensures Follows(r, CopiedOrNull(v), old(State()), State(), limits)
    {
      if v.None? {
        return Ok(Null);
      }
      r := CloneValue(v.value, 0);
    }

    method EvalArray(e: Expr, root: Value, current: Option<Value>) returns (r: Result<seq<Value>, Error>)
      modifies this
      ensures Follows(r, EvaluatedArray(e, root, current), old(State()), State(), limits)
      decreases e, 3
    {
      var v :- Eval(e, root, current);
      r := if v.Arr? then Ok(v.items) else Err(InvalidDefinition);
    }

    /** Evaluates an expression that must give an array, and pays for a slot
        for each of its items. */
    method EvalSlots(e: Expr, root: Value, current: Option<Value>) returns (r: Result<seq<Value>, Error>)
      modifies this
      ensures Follows(r, Slotted(EvaluatedArray(e, root, current)), old(State()), State(), limits)
      decreases e, 4
    {
      ghost var input := EvaluatedArray(e, root, current);
      if input.answer.Some? {
        ReplayAppend(input.charges, [Bytes(Slots(|input.answer.value|, VALUE_SLOT))], State(), limits);
      }
      var xs :- EvalArray(e, root, current);
      var _ :- ChargeSlots(|xs|, VALUE_SLOT);
      r := Ok(xs);
    }

    method EvalMap(e: Expr, root: Value, current: Option<Value>) returns (r: Result<Value, Error>)
      requires e.Map?
      modifies this
      ensures Follows(r, Dispatch(e, root, current), old(State()), State(), limits)
      decreases e, 0
    {
      ghost var input := EvaluatedArray(e.input, root, current);
      if input.answer.Some? {
        ReplayAppend(Slotted(input).charges, InOrder(MappedItems(e.body, root, input.answer.value)).charges, State(),
          limits);
      }
      var xs :- EvalSlots(e.input, root, current);
      var out :- MapItems(e.body, root, xs);
      r := Ok(Arr(out));
    }

    method MapItem(body: Expr, root: Value, x: Value) returns (r: Result<seq<Value>, Error>)
      modifies this
      ensures Follows(r, MappedItem(body, root, x), old(State()), State(), limits)
      decreases body, 3
    {
      var v :- Eval(body, root, Some(x));
      r := Ok([v]);
    }

    method MapItems(body: Expr, root: Value, xs: seq<Value>) returns (r: Result<seq<Value>, Error>)
      modifies this
      ensures Follows(r, InOrder(MappedItems(body, root, xs)), old(State()), State(), limits)
      decreases body, 4
    {
      ghost var ts := MappedItems(body, root, xs);
      ghost var start := State();
      assert ts[0..] == ts;
      var out: seq<Value> := [];
      for i := 0 to |xs|
        invariant Progress(ts, i, out, start, State(), limits)
      {
        ProgressStep(ts, i, out, start, State(), limits);
        assert ts[i] == MappedItem(body, root, xs[i]);
        var mapped :- MapItem(body, root, xs[i]);
        out := out + mapped;
      }
      ProgressEnd(ts, out, start, State(), limits);
      r := Ok(out);
    }

    method EvalFilter(e: Expr, root: Value, current: Option<Value>) returns (r: Result<Value, Error>)
      requires e.Filter?
      modifies this
      ensures Follows(r, Dispatch(e, root, current), old(State()), State(), limits)
      decreases e, 0
    {
      ghost var input := EvaluatedArray(e.input, root, current);
      if input.answer.Some? {
        ReplayAppend(Slotted(input).charges, InOrder(KeptItems(e.predicate_, root, input.answer.value)).charges,
          State(), limits);
      }
      var xs :- EvalSlots(e.input, root, current);
      var out :- FilterItems(e.predicate_, root, xs);
      r := Ok(Arr(out));
    }

    method FilterItems(keep: Expr, root: Value, xs: seq<Value>) returns (r: Result<seq<Value>, Error>)
      modifies this
      ensures Follows(r, InOrder(KeptItems(keep, root, xs)), old(State()), State(), limits)
      decreases keep, 4
    {
      ghost var ts := KeptItems(keep, root, xs);
      ghost var start := State();
      assert ts[0..] == ts;
      var out: seq<Value> := [];
      for i := 0 to |xs|
        invariant Progress(ts, i, out, start, State(), limits)
      {
        ProgressStep(ts, i, out, start, State(), limits);
        assert ts[i] == KeptItem(keep, root, xs[i]);
        var kept :- FilterItem(keep, root, xs[i]);
        out := out + kept;
      }
      ProgressEnd(ts, out, start, State(), limits);
      r := Ok(out);
    }

    /** Decides whether one item stays, and copies it if it does. */
    method FilterItem(keep: Expr, root: Value, x: Value) returns (r: Result<seq<Value>, Error>)
      modifies this
      ensures Follows(r, KeptItem(keep, root, x), old(State()), State(), limits)
      decreases keep, 3
    {
      ReplayAppend(Evaluation(keep, root, Some(x)).charges, CopyCharges(x, 0), State(), limits);
      var flag :- Eval(keep, root, Some(x));
      if !Truthy(flag) {
        return Ok([]);
      }
      var copy :- CloneValue(x, 0);
      r := Ok([copy]);
    }

    method EvalCompare(e: Expr, root: Value, current: Option<Value>) returns (r: Result<Value, Error>)
      requires e.Compare?
      modifies this
      ensures Follows(r, Dispatch(e, root, current), old(State()), State(), limits)
      decreases e, 0
    {
      ReplayAppend(Evaluation(e.left, root, current).charges, Evaluation(e.right, root, current).charges, State(),
        limits);
      var left :- Eval(e.left, root, current);
      var right :- Eval(e.right, root, current);
      var verdict := Comparison(e.op, left, right);
      r := if verdict.Some? then Ok(verdict.value) else Err(InvalidDefinition);
    }

    /** Evaluates the items in turn and stops at the one that settles the whole. */
    method EvalItems(ghost e: Expr, items: seq<Expr>, root: Value, current: Option<Value>, settles: bool)
        returns (r: Result<Value, Error>)
      requires forall k | 0 <= k < |items| :: items[k] < e
      modifies this
      ensures Follows(r, AsBool(ShortCircuit(Evaluations(items, root, current), settles)), old(State()), State(),
              limits)
      decreases e, 0
    {
      ghost var ts := Evaluations(items, root, current);
      ghost var whole := ShortCircuit(ts, settles);
      assert ts[0..] == ts;
      for i := 0 to |items|
        invariant var rest := ShortCircuit(ts[i..], settles);
          && Replay(whole.charges, old(State()), limits) == Replay(rest.charges, State(), limits)
          && whole.answer == rest.answer
      {
        ghost var rest := ts[i..];
        assert ts[i + 1..] == rest[1..];
        ReplayAppend(rest[0].charges, ShortCircuit(rest[1..], settles).charges, State(), limits);
        var v :- Eval(items[i], root, current);
        if Truthy(v) == settles {
          return Ok(Bool(settles));
        }
      }
      r := Ok(Bool(!settles));
    }
  }
}
