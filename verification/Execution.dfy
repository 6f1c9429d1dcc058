/** One execution of a tool definition on scoped inputs. */
module Execution {
  import opened Wrappers
  import opened Json
  import opened ToolLanguage
  import opened Metering
  import opened Evaluator

  const MAX_INPUT_RECORDS: nat := 10_000
  const MAX_FUEL: nat := 1_000_000
  const MAX_CHARGED_MEMORY: nat := 32 * 1024 * 1024
  const MAX_OUTPUT_BYTES: nat := 1024 * 1024
  const MAX_NAME_BYTES: nat := 256

  /** The labels of a scope, in order, each once. */
  type Scope = seq<string>

  function Labels(scope: Scope): set<string> { set l | l in scope }

  datatype ToolDefinition = ToolDefinition(name: string, version: nat, inputScope: Scope, expression: Expr)

  datatype ScopedInput = ScopedInput(value: Value, scope: Scope)

  /** The definition's hash stands for the definition itself. */
  datatype ToolResult = ToolResult(value: Value, outputScope: set<string>, tool: ToolDefinition, fuelUsed: int,
      operations: nat)

  /** How long definitions and values are once serialized. */
  datatype Serializer = Serializer(definition: ToolDefinition -> nat, value: Value -> nat)

  predicate Blank(c: char) { c <= ' ' || c == 127 as char }

  predicate NameFits(name: string) {
    name != "" && |name| <= MAX_NAME_BYTES && forall i | 0 <= i < |name| :: !Blank(name[i])
  }

  function Validated(d: ToolDefinition, text: Serializer): Result<(), Error> {
    if !NameFits(d.name) then Err(InvalidDefinition)
    else if AstDepth(d.expression) <= MAX_AST_DEPTH && LeavesFit(d.expression, 0)
      && text.definition(d) <= MAX_DEFINITION_BYTES
    then Ok(())
    else Err(Limit)
  }

  method ValidateDefinition(d: ToolDefinition, text: Serializer) returns (r: Result<(), Error>)
    ensures r == Validated(d, text)
  {
    if !NameFits(d.name) {
      return Err(InvalidDefinition);
    }
    var fits := ValidateExpr(d.expression, 0);
    if !fits || text.definition(d) > MAX_DEFINITION_BYTES {
      return Err(Limit);
    }
    r := if AstDepth(d.expression) > MAX_AST_DEPTH then Err(Limit) else Ok(());
  }

  // What a run is charged and what it answers.

  function Values(inputs: seq<ScopedInput>): seq<Value> {
    seq(|inputs|, i requires 0 <= i < |inputs| => inputs[i].value)
  }

  function AllLabels(inputs: seq<ScopedInput>): set<string> {
    set i, l | 0 <= i < |inputs| && l in inputs[i].scope :: l
  }

  function LabelCharges(scope: Scope): seq<Charge> {
    if scope == [] then [] else [Bytes(|scope[0]|)] + LabelCharges(scope[1..])
  }

  function InputCharges(inputs: seq<ScopedInput>): seq<Charge> {
    if inputs == [] then []
    else LabelCharges(inputs[0].scope) + CopyCharges(inputs[0].value, 0) + InputCharges(inputs[1..])
  }

  function RunTrace(d: ToolDefinition, inputs: seq<ScopedInput>): Trace<Value> {
    var t := Evaluation(d.expression, Arr(Values(inputs)), None);
    Trace([Bytes(Slots(|inputs|, VALUE_SLOT))] + InputCharges(inputs) + t.charges, t.answer)
  }

  /** The result at a given amount of fuel and given limits. */
  function Executed(d: ToolDefinition, inputs: seq<ScopedInput>, text: Serializer, fuel: nat,
      lim: Limits): Result<ToolResult, Error>
  {
    var _ :- Validated(d, text);
    if |inputs| > MAX_INPUT_RECORDS then Err(Limit)
    else Outcome(RunTrace(d, inputs), d, AllLabels(inputs), text, fuel, lim)
  }

  /** What comes of a trace. */
  function Outcome(t: Trace<Value>, d: ToolDefinition, labels: set<string>, text: Serializer, fuel: nat,
      lim: Limits): Result<ToolResult, Error>
  {
    match Replay(t.charges, Meter(fuel, 0, 0), lim)
    case None => Err(Limit)
    case Some(m) =>
      if t.answer.None? then Err(InvalidDefinition) else Concluded(t.answer.value, m, d, labels, text, fuel, lim)
  }

  /** The result of a run that has its answer, once its output is checked. */
  function Concluded(v: Value, m: Meter, d: ToolDefinition, labels: set<string>, text: Serializer, fuel: nat,
      lim: Limits): Result<ToolResult, Error>
  {
    if !OutputFits(v, text) || !Accepts(Bytes(SizeOf(v)), m, lim) then Err(Limit)
    else Ok(ToolResult(v, labels, d, fuel - m.fuel, m.operations))
  }

  predicate OutputFits(v: Value, text: Serializer) {
    DepthOf(v) <= MAX_VALUE_DEPTH && SizeOf(v) <= MAX_OUTPUT_BYTES && text.value(v) <= MAX_OUTPUT_BYTES
  }

  method ChargeInput(budget: Budget, input: ScopedInput) returns (r: Result<Value, Error>)
    modifies budget
    ensures Follows(r, Trace(LabelCharges(input.scope) + CopyCharges(input.value, 0), Some(input.value)),
                    old(budget.State()), budget.State(), budget.limits)
  {
    ReplayAppend(LabelCharges(input.scope), CopyCharges(input.value, 0), budget.State(), budget.limits);
    var i := 0;
    while i < |input.scope|
      invariant 0 <= i <= |input.scope|
      invariant Replay(LabelCharges(input.scope), old(budget.State()), budget.limits)
             == Replay(LabelCharges(input.scope[i..]), budget.State(), budget.limits)
    {
      ghost var rest := input.scope[i..];
      assert input.scope[i + 1..] == rest[1..];
      ReplayAppend([Bytes(|rest[0]|)], LabelCharges(rest[1..]), budget.State(), budget.limits);
      var _ :- budget.Charge(|input.scope[i]|);
      i := i + 1;
    }
    assert input.scope[i..] == [];
    r := budget.CloneValue(input.value, 0);
  }

  method ChargeInputs(budget: Budget, inputs: seq<ScopedInput>) returns (r: Result<seq<Value>, Error>)
    modifies budget
    ensures Follows(r, Trace(InputCharges(inputs), Some(Values(inputs))), old(budget.State()), budget.State(),
            budget.limits)
  {
    var values: seq<Value> := [];
    while |values| < |inputs|
      invariant values <= Values(inputs)
      invariant Replay(InputCharges(inputs), old(budget.State()), budget.limits)
             == Replay(InputCharges(inputs[|values|..]), budget.State(), budget.limits)
    {
      ghost var rest := inputs[|values|..];
      assert inputs[|values| + 1..] == rest[1..];
      ReplayAppend(LabelCharges(rest[0].scope) + CopyCharges(rest[0].value, 0), InputCharges(rest[1..]), budget.State(),
        budget.limits);
      var v :- ChargeInput(budget, inputs[|values|]);
      values := values + [v];
    }
    assert inputs[|values|..] == [];
    assert values == Values(inputs);
    r := Ok(values);
  }

  /** Charges the inputs and evaluates the tool's expression on them. */
  method RunTool(budget: Budget, d: ToolDefinition, inputs: seq<ScopedInput>) returns (r: Result<Value, Error>)
    modifies budget
    ensures Follows(r, RunTrace(d, inputs), old(budget.State()), budget.State(), budget.limits)
  {
    ghost var lim := budget.limits;
    ghost var start := budget.State();
    ghost var slots := [Bytes(Slots(|inputs|, VALUE_SLOT))];
    ghost var evaluation := Evaluation(d.expression, Arr(Values(inputs)), None);
    ReplayAppend(slots + InputCharges(inputs), evaluation.charges, start, lim);
    ReplayAppend(slots, InputCharges(inputs), start, lim);
    var _ :- budget.ChargeSlots(|inputs|, VALUE_SLOT);
    var values :- ChargeInputs(budget, inputs);
    r := budget.Eval(d.expression, Arr(values), None);
  }

  method Execute(d: ToolDefinition, inputs: seq<ScopedInput>, text: Serializer, stop: Option<nat>)
      returns (r: Result<ToolResult, Error>)
    ensures r == Executed(d, inputs, text, MAX_FUEL, Limits(MAX_CHARGED_MEMORY, stop))
  {
    var _ :- ValidateDefinition(d, text);
    if |inputs| > MAX_INPUT_RECORDS {
      return Err(Limit);
    }
    var budget := new Budget(MAX_FUEL, Limits(MAX_CHARGED_MEMORY, stop));
    var value :- RunTool(budget, d, inputs);
    r := Conclude(budget, value, d, AllLabels(inputs), text);
  }

  /** Checks and charges the output. */
  method Conclude(budget: Budget, value: Value, d: ToolDefinition, labels: set<string>, text: Serializer)
      returns (r: Result<ToolResult, Error>)
    modifies budget
    ensures r == Concluded(value, old(budget.State()), d, labels, text, MAX_FUEL, budget.limits)
  {
    var size :- MeasureValue(value, 0, MAX_OUTPUT_BYTES);
    ReplayOne(Bytes(size), budget.State(), budget.limits);
    var used := MAX_FUEL - budget.fuel;
    var operations := budget.operations;
    var _ :- budget.Charge(size);
    if text.value(value) > MAX_OUTPUT_BYTES {
      return Err(Limit);
    }
    r := Ok(ToolResult(value, labels, d, used, operations));
  }

  // What an execution's result says.

  /** An accepted run's value is the reference meaning, its fuel is its number
      of operations, and a refusal for misuse is one the reference shares. */
  lemma ExecutionMeansReference(d: ToolDefinition, inputs: seq<ScopedInput>, text: Serializer, fuel: nat, lim: Limits)
    ensures var r := Executed(d, inputs, text, fuel, lim);
            var meaning := Meaning(d.expression, Arr(Values(inputs)), None);
            && (r.Ok? ==> meaning == Some(r.value.value) && r.value.fuelUsed == r.value.operations
                          && r.value.outputScope == AllLabels(inputs) && r.value.tool == d)
            && (Validated(d, text).Ok? && r == Err(InvalidDefinition) ==> meaning == None)
            && (meaning == None ==> r.Err?)
  {
    AnswerIsMeaning(d.expression, Arr(Values(inputs)), None);
    var cs := RunTrace(d, inputs).charges;
    if Replay(cs, Meter(fuel, 0, 0), lim).Some? {
      ReplayTotals(cs, Meter(fuel, 0, 0), lim);
    }
  }

  /** A run succeeds exactly when the definition is valid, means something, its
      answer fits the output bounds, and the totals of its charges fit. */
  lemma ExecutesExactlyWhenAffordable(d: ToolDefinition, inputs: seq<ScopedInput>, text: Serializer, fuel: nat,
      lim: Limits)
    ensures var meaning := Meaning(d.expression, Arr(Values(inputs)), None);
            Executed(d, inputs, text, fuel, lim).Ok? <==>
              && Validated(d, text).Ok?
              && |inputs| <= MAX_INPUT_RECORDS
              && meaning.Some?
              && OutputFits(meaning.value, text)
              && Affordable(RunTrace(d, inputs).charges + [Bytes(SizeOf(meaning.value))], Meter(fuel, 0, 0), lim)
  {
    AnswerIsMeaning(d.expression, Arr(Values(inputs)), None);
    var t := RunTrace(d, inputs);
    var m := Meter(fuel, 0, 0);
    if t.answer.Some? {
      var last := Bytes(SizeOf(t.answer.value));
      ReplayIsArithmetic(t.charges + [last], m, lim);
      ReplayAppend(t.charges, [last], m, lim);
      if Replay(t.charges, m, lim).Some? {
        ReplayOne(last, Replay(t.charges, m, lim).value, lim);
      }
    }
  }

  lemma OutcomesAgree(t: Trace<Value>, d: ToolDefinition, labels: set<string>, text: Serializer, fuel: nat, lim: Limits,
      fuel': nat, lim': Limits)
    requires fuel <= fuel' && lim.memory <= lim'.memory
    requires lim'.stop.Some? ==> lim.stop.Some? && lim.stop.value <= lim'.stop.value
    ensures var r, r' := Outcome(t, d, labels, text, fuel, lim), Outcome(t, d, labels, text, fuel', lim');
            (r.Ok? ==> r' == r) && (r == Err(InvalidDefinition) ==> r' == r)
  {
    ReplayIsArithmetic(t.charges, Meter(fuel, 0, 0), lim);
    ReplayIsArithmetic(t.charges, Meter(fuel', 0, 0), lim');
  }

  /** A run that gives an answer gives the same answer, at the same cost, with
      any more fuel, more memory and a later or no interruption; a refusal for
      misuse stands too. */
  lemma LargerBudgetsAgree(d: ToolDefinition, inputs: seq<ScopedInput>, text: Serializer, fuel: nat, lim: Limits,
      fuel': nat, lim': Limits)
    requires fuel <= fuel' && lim.memory <= lim'.memory
    requires lim'.stop.Some? ==> lim.stop.Some? && lim.stop.value <= lim'.stop.value
    ensures Executed(d, inputs, text, fuel, lim).Ok? ==>
              Executed(d, inputs, text, fuel', lim') == Executed(d, inputs, text, fuel, lim)
    ensures Executed(d, inputs, text, fuel, lim) == Err(InvalidDefinition) ==>
              Executed(d, inputs, text, fuel', lim') == Err(InvalidDefinition)
  {
    OutcomesAgree(RunTrace(d, inputs), d, AllLabels(inputs), text, fuel, lim, fuel', lim');
  }
}
