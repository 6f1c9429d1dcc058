/** The pure-data tool language: its expressions, what they mean, and the
    structural validation every definition passes before it runs. */
module ToolLanguage {
  import opened Wrappers
  import opened Json
  import Texts

  const MAX_DEFINITION_BYTES: nat := 256 * 1024
  const MAX_AST_DEPTH: nat := 32

  datatype CompareOp = Eq | Ne | Lt | Lte | Gt | Gte

  datatype Expr =
    | Input
    | Current
    | Field(path: string)
    | CurrentField(path: string)
    | Literal(value: Value)
    | Map(input: Expr, body: Expr)
    | Filter(input: Expr, predicate_: Expr)
    | Compare(op: CompareOp, left: Expr, right: Expr)
    | And(items: seq<Expr>)
    | Or(items: seq<Expr>)
    | Not(operand: Expr)

  // Field lookup.

  function Split(s: string, separator: char): (parts: seq<string>)
    ensures parts != []
  {
    if s == "" then [""]
    else
      var rest := Split(s[1..], separator);
      if s[0] == separator then [""] + rest
      else [[s[0]] + rest[0]] + rest[1..]
  }

  function Member(entries: seq<Entry>, key: string): Option<Value> {
    if entries == [] then None
    else if entries[0].key == key then Some(entries[0].value)
    else Member(entries[1..], key)
  }

  /** Follows the parts of a path; only objects have members. */
  function Walk(v: Value, parts: seq<string>): Option<Value>
    decreases |parts|
  {
    if parts == [] then Some(v)
    else if !v.Obj? then None
    else
      match Member(v.entries, parts[0])
      case None => None
      case Some(next) => Walk(next, parts[1..])
  }

  function Lookup(v: Value, path: string): Option<Value> {
    if path == "" then Some(v) else Walk(v, Split(path, '.'))
  }

  // Comparison.

  function Ordering(l: Value, r: Value): Option<int> {
    match (l, r)
    case (Num(a), Num(b)) => Some(a.order - b.order)
    case (Str(a), Str(b)) => Some(Texts.Order(a, b))
    case _ => None
  }

  /** Nothing when an ordering is asked of two values that have none. */
  function Comparison(op: CompareOp, l: Value, r: Value): Option<Value> {
    match op
    case Eq => Some(Bool(l == r))
    case Ne => Some(Bool(l != r))
    case _ =>
      var o :- Ordering(l, r);
      Some(Bool(match op
                case Lt => o < 0
                case Lte => !(0 < o)
                case Gt => 0 < o
                case _ => !(o < 0)))
  }

  // The reference meaning: no budget, no order of evaluation, no early exit.
  // An expression that misuses the language in some place means nothing.

  /** The first answer that is not Truthy (for a conjunction) or that is (for a
      disjunction) settles the whole; an answer after it does not matter. */
  function Decide(answers: seq<Option<Value>>, settles: bool): Option<bool> {
    if answers == [] then Some(!settles)
    else if answers[0].None? then None
    else if Truthy(answers[0].value) == settles then Some(settles)
    else Decide(answers[1..], settles)
  }

  /** All values, when every answer is one. */
  function Collect(answers: seq<Option<Value>>): Option<seq<Value>> {
    if forall i | 0 <= i < |answers| :: answers[i].Some?
    then Some(seq(|answers|, i requires 0 <= i < |answers| => answers[i].value))
    else None
  }

  function Select(xs: seq<Value>, keep: seq<Value>): seq<Value>
    requires |xs| == |keep|
  {
    if xs == [] then []
    else (if Truthy(keep[0]) then [xs[0]] else []) + Select(xs[1..], keep[1..])
  }

  function Meaning(e: Expr, root: Value, current: Option<Value>): Option<Value>
    decreases e, 0
  {
    match e
    case Input => Some(root)
    case Current => current
    case Field(path) => Some(OrNull(Lookup(root, path)))
    case CurrentField(path) =>
      var v :- current;
      Some(OrNull(Lookup(v, path)))
    case Literal(v) => Some(v)
    case Map(input, body) =>
      var xs :- MeaningOfArray(input, root, current);
      var ys :- Collect(MeaningsOver(body, root, xs));
      Some(Arr(ys))
    case Filter(input, keep) =>
      var xs :- MeaningOfArray(input, root, current);
      var flags :- Collect(MeaningsOver(keep, root, xs));
      Some(Arr(Select(xs, flags)))
    case Compare(op, left, right) =>
      var l :- Meaning(left, root, current);
      var r :- Meaning(right, root, current);
      Comparison(op, l, r)
    case And(items) =>
      var b :- Decide(MeaningsOf(items, root, current), false);
      Some(Bool(b))
    case Or(items) =>
      var b :- Decide(MeaningsOf(items, root, current), true);
      Some(Bool(b))
    case Not(operand) =>
      var v :- Meaning(operand, root, current);
      Some(Bool(!Truthy(v)))
  }

  function MeaningOfArray(e: Expr, root: Value, current: Option<Value>): Option<seq<Value>>
    decreases e, 1
  {
    var v :- Meaning(e, root, current);
    if v.Arr? then Some(v.items) else None
  }

  /** What the body means with each item as the current value. */
  function MeaningsOver(body: Expr, root: Value, xs: seq<Value>): (answers: seq<Option<Value>>)
    ensures |answers| == |xs|
    decreases body, 1
  {
    seq(|xs|, i requires 0 <= i < |xs| => Meaning(body, root, Some(xs[i])))
  }

  function MeaningsOf(items: seq<Expr>, root: Value, current: Option<Value>): seq<Option<Value>>
    decreases items, 0
  {
    seq(|items|, i requires 0 <= i < |items| => Meaning(items[i], root, current))
  }

  function OrNull(v: Option<Value>): Value {
    match v case Some(x) => x case None => Null
  }

  // Structural validation.

  function AstDepth(e: Expr): nat {
    match e
    case Map(a, b) => 1 + Max(AstDepth(a), AstDepth(b))
    case Filter(a, b) => 1 + Max(AstDepth(a), AstDepth(b))
    case Compare(_, a, b) => 1 + Max(AstDepth(a), AstDepth(b))
    case And(items) => 1 + ListDepth(items)
    case Or(items) => 1 + ListDepth(items)
    case Not(a) => 1 + AstDepth(a)
    case _ => 1
  }

  function ListDepth(items: seq<Expr>): nat {
    if items == [] then 0 else Max(AstDepth(items[0]), ListDepth(items[1..]))
  }

  /** What validation demands of the leaves, `depth` levels down. */
  predicate LeavesFit(e: Expr, depth: nat) {
    match e
    case Field(path) => |path| <= MAX_DEFINITION_BYTES
    case CurrentField(path) => |path| <= MAX_DEFINITION_BYTES
    case Literal(v) => depth + DepthOf(v) <= MAX_VALUE_DEPTH && SizeOf(v) <= MAX_DEFINITION_BYTES
    case Map(a, b) => LeavesFit(a, depth + 1) && LeavesFit(b, depth + 1)
    case Filter(a, b) => LeavesFit(a, depth + 1) && LeavesFit(b, depth + 1)
    case Compare(_, a, b) => LeavesFit(a, depth + 1) && LeavesFit(b, depth + 1)
    case And(items) => forall i | 0 <= i < |items| :: LeavesFit(items[i], depth + 1)
    case Or(items) => forall i | 0 <= i < |items| :: LeavesFit(items[i], depth + 1)
    case Not(a) => LeavesFit(a, depth + 1)
    case _ => true
  }

  lemma ListDepthBounds(items: seq<Expr>, bound: nat)
    ensures ListDepth(items) <= bound <==> forall i | 0 <= i < |items| :: AstDepth(items[i]) <= bound
  {
    if items != [] {
      ListDepthBounds(items[1..], bound);
      assert forall i | 0 < i < |items| :: items[i] == items[1..][i - 1];
      assert forall i | 0 <= i < |items[1..]| :: items[1..][i] == items[i + 1];
    }
  }

  /** Top-down validation, which refuses at the first level past the bound,
      accepts exactly the expressions whose bottom-up depth fits and whose
      leaves fit; in particular the later depth check of a validated definition
      never fires. */
  method ValidateExpr(e: Expr, depth: nat) returns (ok: bool)
    requires depth <= MAX_AST_DEPTH
    ensures ok <==> depth + AstDepth(e) <= MAX_AST_DEPTH && LeavesFit(e, depth)
    decreases e
  {
    if depth >= MAX_AST_DEPTH {
      return false;
    }
    match e {
    case Input => return true;
    case Current => return true;
    case Field(path) => return |path| <= MAX_DEFINITION_BYTES;
    case CurrentField(path) => return |path| <= MAX_DEFINITION_BYTES;
    case Literal(v) =>
      var measured := MeasureValue(v, depth, MAX_DEFINITION_BYTES);
      return measured.Ok?;
    case Map(a, b) => ok := ValidatePair(e, a, b, depth);
    case Filter(a, b) => ok := ValidatePair(e, a, b, depth);
    case Compare(_, a, b) => ok := ValidatePair(e, a, b, depth);
    case And(items) => ok := ValidateList(e, items, depth);
    case Or(items) => ok := ValidateList(e, items, depth);
    case Not(a) => ok := ValidateExpr(a, depth + 1);
    }
  }

  method ValidatePair(ghost e: Expr, a: Expr, b: Expr, depth: nat) returns (ok: bool)
    requires depth < MAX_AST_DEPTH && a < e && b < e
    ensures ok <==> depth + 1 + Max(AstDepth(a), AstDepth(b)) <= MAX_AST_DEPTH
                    && LeavesFit(a, depth + 1) && LeavesFit(b, depth + 1)
    decreases e, 0
  {
    ok := ValidateExpr(a, depth + 1);
    if ok {
      ok := ValidateExpr(b, depth + 1);
    }
  }

  method ValidateList(ghost e: Expr, items: seq<Expr>, depth: nat) returns (ok: bool)
    requires depth < MAX_AST_DEPTH && forall i | 0 <= i < |items| :: items[i] < e
    ensures ok <==> depth + 1 + ListDepth(items) <= MAX_AST_DEPTH
                    && forall i | 0 <= i < |items| :: LeavesFit(items[i], depth + 1)
    decreases e, 0
  {
    ListDepthBounds(items, MAX_AST_DEPTH - depth - 1);
    for n := 0 to |items|
      invariant forall i | 0 <= i < n ::
                  depth + 1 + AstDepth(items[i]) <= MAX_AST_DEPTH && LeavesFit(items[i], depth + 1)
    {
      ok := ValidateExpr(items[n], depth + 1);
      if !ok {
        return;
      }
    }
    ok := true;
  }
}
