/** What each form of expression means, in terms of what its parts mean. */
module Meanings {
  import opened Wrappers
  import opened Json
  import opened ToolLanguage
  import opened Texts

  // Comparison.

  /** Numbers compare by their order, and are equal only when stored alike. */
  lemma NumbersCompare(left: Expr, right: Expr, root: Value, current: Option<Value>, a: Number, b: Number)
    requires Meaning(left, root, current) == Some(Num(a)) && Meaning(right, root, current) == Some(Num(b))
    ensures Meaning(Compare(Eq, left, right), root, current) == Some(Bool(a == b))
    ensures Meaning(Compare(Ne, left, right), root, current) == Some(Bool(a != b))
    ensures Meaning(Compare(Lt, left, right), root, current) == Some(Bool(a.order < b.order))
    ensures Meaning(Compare(Lte, left, right), root, current) == Some(Bool(a.order <= b.order))
    ensures Meaning(Compare(Gt, left, right), root, current) == Some(Bool(a.order > b.order))
    ensures Meaning(Compare(Gte, left, right), root, current) == Some(Bool(a.order >= b.order))
  {
  }

  /** Texts compare by their bytes. */
  lemma StringsCompare(left: Expr, right: Expr, root: Value, current: Option<Value>, a: string, b: string)
    requires Meaning(left, root, current) == Some(Str(a)) && Meaning(right, root, current) == Some(Str(b))
    ensures Meaning(Compare(Eq, left, right), root, current) == Some(Bool(a == b))
    ensures Meaning(Compare(Ne, left, right), root, current) == Some(Bool(a != b))
    ensures Meaning(Compare(Lt, left, right), root, current) == Some(Bool(Less(a, b)))
    ensures Meaning(Compare(Lte, left, right), root, current) == Some(Bool(a == b || Less(a, b)))
    ensures Meaning(Compare(Gt, left, right), root, current) == Some(Bool(Less(b, a)))
    ensures Meaning(Compare(Gte, left, right), root, current) == Some(Bool(a == b || Less(b, a)))
  {
    OrderIsLess(a, b);
  }

  predicate Ordered(l: Value, r: Value) { (l.Num? && r.Num?) || (l.Str? && r.Str?) }

  /** A comparison means something exactly when its operands do and, unless it
      only asks whether they are equal, are two numbers or two texts. */
  lemma ComparisonsAnswer(op: CompareOp, left: Expr, right: Expr, root: Value, current: Option<Value>)
    ensures var l, r := Meaning(left, root, current), Meaning(right, root, current);
            var m := Meaning(Compare(op, left, right), root, current);
            && (m.Some? <==> l.Some? && r.Some? && (op.Eq? || op.Ne? || Ordered(l.value, r.value)))
            && (m.Some? && op.Eq? ==> m == Some(Bool(l == r)))
            && (m.Some? && op.Ne? ==> m == Some(Bool(l != r)))
  {
  }

  lemma LeavesMean(v: Value, root: Value, current: Option<Value>)
    ensures Meaning(Input, root, current) == Some(root) && Meaning(Current, root, current) == current
    ensures Meaning(Literal(v), root, current) == Some(v)
  {
  }

  // Logic. Only the value true counts as true.

  const TRUE := Some(Bool(true))

  predicate AllTrue(items: seq<Expr>, root: Value, current: Option<Value>, upTo: int)
    requires upTo <= |items|
  {
    forall i | 0 <= i < upTo :: Meaning(items[i], root, current) == TRUE
  }

  predicate NoneTrue(items: seq<Expr>, root: Value, current: Option<Value>, upTo: int)
    requires upTo <= |items|
  {
    forall i | 0 <= i < upTo :: Meaning(items[i], root, current).Some? && Meaning(items[i], root, current) != TRUE
  }

  lemma {:induction false} FirstSettles(answers: seq<Option<Value>>, settles: bool) returns (first: nat)
    ensures first <= |answers|
    ensures forall i | 0 <= i < first :: answers[i].Some? && (answers[i] == TRUE <==> !settles)
    ensures first < |answers| ==> answers[first].None? || (answers[first] == TRUE <==> settles)
    ensures Decide(answers, settles) ==
            if first == |answers| then Some(!settles) else if answers[first].None? then None else Some(settles)
  {
    first := 0;
    if answers != [] && answers[0].Some? && (answers[0] == TRUE <==> !settles) {
      var rest := FirstSettles(answers[1..], settles);
      assert forall i | 0 < i < |answers| :: answers[i] == answers[1..][i - 1];
      first := rest + 1;
    }
  }

  /** A conjunction is true when all its items are, and false at the first that
      means something else; before that, every item must mean something. */
  lemma ConjunctionMeans(items: seq<Expr>, root: Value, current: Option<Value>)
    ensures var m := Meaning(And(items), root, current);
            && (m == TRUE <==> AllTrue(items, root, current, |items|))
            && (m == Some(Bool(false)) <==> exists i | 0 <= i < |items| ::
                  AllTrue(items, root, current, i) && Meaning(items[i], root, current).Some?
                  && Meaning(items[i], root, current) != TRUE)
            && (m.Some? ==> m.value.Bool?)
  {
    var answers := MeaningsOf(items, root, current);
    var first := FirstSettles(answers, false);
    assert forall i | 0 <= i < |items| :: answers[i] == Meaning(items[i], root, current);
    assert AllTrue(items, root, current, first);
  }

  /** A disjunction is true at its first true item, and false when none is;
      before that, every item must mean something. */
  lemma DisjunctionMeans(items: seq<Expr>, root: Value, current: Option<Value>)
    ensures var m := Meaning(Or(items), root, current);
            && (m == TRUE <==> exists i | 0 <= i < |items| ::
                  NoneTrue(items, root, current, i) && Meaning(items[i], root, current) == TRUE)
            && (m == Some(Bool(false)) <==> NoneTrue(items, root, current, |items|))
            && (m.Some? ==> m.value.Bool?)
  {
    var answers := MeaningsOf(items, root, current);
    var first := FirstSettles(answers, true);
    assert forall i | 0 <= i < |items| :: answers[i] == Meaning(items[i], root, current);
    assert NoneTrue(items, root, current, first);
  }

  lemma NegationMeans(operand: Expr, root: Value, current: Option<Value>)
    ensures var v := Meaning(operand, root, current);
            Meaning(Not(operand), root, current) == if v.None? then None else Some(Bool(v != TRUE))
  {
  }

  // Items.

  /** A map means an array with the meaning of its body for each item, in their
      order. */
  lemma MapMeansEach(input: Expr, body: Expr, root: Value, current: Option<Value>)
    ensures var xs, m := Meaning(input, root, current), Meaning(Map(input, body), root, current);
            && (m.Some? <==> xs.Some? && xs.value.Arr? && AllMean(body, root, xs.value.items))
            && (m.Some? ==>
                  && m.value.Arr? && |m.value.items| == |xs.value.items|
                  && forall i | 0 <= i < |xs.value.items| ::
                       Meaning(body, root, Some(xs.value.items[i])) == Some(m.value.items[i]))
  {
    var xs := Meaning(input, root, current);
    if xs.Some? && xs.value.Arr? { MeaningsAt(body, root, xs.value.items); }
  }

  predicate AllMean(body: Expr, root: Value, xs: seq<Value>) {
    forall i | 0 <= i < |xs| :: Meaning(body, root, Some(xs[i])).Some?
  }

  lemma MeaningsAt(body: Expr, root: Value, xs: seq<Value>)
    ensures var values := Collect(MeaningsOver(body, root, xs));
            && (values.Some? <==> AllMean(body, root, xs))
            && (values.Some? ==>
                  && |values.value| == |xs|
                  && forall i | 0 <= i < |xs| :: Meaning(body, root, Some(xs[i])) == Some(values.value[i]))
  {
    var answers := MeaningsOver(body, root, xs);
    assert forall i | 0 <= i < |xs| :: answers[i] == Meaning(body, root, Some(xs[i]));
  }

  /** These are the places, in order, of the items whose flag is true, from the
      given one on. */
  predicate Places(at: seq<nat>, keep: seq<Value>, from: nat) {
    && (forall k | 0 <= k < |at| :: from <= at[k] < |keep| && keep[at[k]] == Bool(true))
    && (forall i, k | 0 <= i < k < |at| :: at[i] < at[k])
    && (forall i: nat | from <= i < |keep| && keep[i] == Bool(true) :: i in at)
  }

  predicate SelectedAt(kept: seq<Value>, xs: seq<Value>, at: seq<nat>) {
    |kept| == |at| && forall k | 0 <= k < |at| :: at[k] < |xs| && kept[k] == xs[at[k]]
  }

  function PlacesOf(keep: seq<Value>, from: nat): seq<nat>
    requires from <= |keep|
    decreases |keep| - from
  {
    if from == |keep| then []
    else if keep[from] == Bool(true) then [from] + PlacesOf(keep, from + 1)
    else PlacesOf(keep, from + 1)
  }

  lemma {:induction false} PlacesFound(keep: seq<Value>, from: nat)
    requires from <= |keep|
    ensures Places(PlacesOf(keep, from), keep, from)
    decreases |keep| - from
  {
    if from < |keep| {
      PlacesFound(keep, from + 1);
      var rest := PlacesOf(keep, from + 1);
      if keep[from] == Bool(true) { assert forall i: nat :: i in [from] + rest <==> i == from || i in rest; }
    }
  }

  lemma {:induction false} SelectKeeps(xs: seq<Value>, keep: seq<Value>, from: nat)
    requires from <= |xs| == |keep|
    ensures SelectedAt(Select(xs[from..], keep[from..]), xs, PlacesOf(keep, from))
    decreases |xs| - from
  {
    if from < |xs| {
      SelectKeeps(xs, keep, from + 1);
      assert xs[from..][1..] == xs[from + 1..] && keep[from..][1..] == keep[from + 1..];
    }
  }

  /** A filter means an array of exactly the items for which its condition is
      true, in their order. */
  lemma FilterMeansKept(input: Expr, keep: Expr, root: Value, current: Option<Value>) returns (at: seq<nat>)
    ensures var xs, m := Meaning(input, root, current), Meaning(Filter(input, keep), root, current);
            && (m.Some? <==> xs.Some? && xs.value.Arr? && AllMean(keep, root, xs.value.items))
            && (m.Some? ==> m.value.Arr? && KeptAt(m.value.items, xs.value.items, keep, root, at))
  {
    at := [];
    var xs := Meaning(input, root, current);
    if xs.Some? && xs.value.Arr? {
      MeaningsAt(keep, root, xs.value.items);
      var flags := Collect(MeaningsOver(keep, root, xs.value.items));
      if flags.Some? { at := SelectedPlaces(xs.value.items, flags.value, keep, root); }
    }
  }

  /** Exactly the items at these places, in order, and they are the places where
      the condition is true. */
  predicate KeptAt(kept: seq<Value>, xs: seq<Value>, keep: Expr, root: Value, at: seq<nat>) {
    && |kept| == |at| && (forall k | 0 <= k < |at| :: at[k] < |xs| && kept[k] == xs[at[k]])
    && (forall i, k | 0 <= i < k < |at| :: at[i] < at[k])
    && (forall i: nat | i < |xs| :: i in at <==> Meaning(keep, root, Some(xs[i])) == TRUE)
  }

  lemma SelectedPlaces(xs: seq<Value>, flags: seq<Value>, keep: Expr, root: Value) returns (at: seq<nat>)
    requires |xs| == |flags| && forall i | 0 <= i < |xs| :: Meaning(keep, root, Some(xs[i])) == Some(flags[i])
    ensures KeptAt(Select(xs, flags), xs, keep, root, at)
  {
    at := PlacesOf(flags, 0);
    PlacesFound(flags, 0);
    SelectKeeps(xs, flags, 0);
    assert xs[0..] == xs && flags[0..] == flags;
  }

  // Fields.

  function Joined(parts: seq<string>): string
    requires parts != []
  {
    if |parts| == 1 then parts[0] else parts[0] + "." + Joined(parts[1..])
  }

  predicate Dotless(parts: seq<string>) { forall i | 0 <= i < |parts| :: '.' !in parts[i] }

  lemma {:induction false} SplitFirst(a: string, rest: string)
    requires '.' !in a
    ensures Split(a, '.') == [a]
    ensures Split(a + "." + rest, '.') == [a] + Split(rest, '.')
    decreases |a|
  {
    var s := a + "." + rest;
    if a == "" {
      assert s[1..] == rest;
    } else {
      assert a[0] in a && s[0] == a[0] && s[1..] == a[1..] + "." + rest;
      SplitFirst(a[1..], rest);
      assert [a[0]] + a[1..] == a;
    }
  }

  lemma {:induction false} SplitUndoesJoin(parts: seq<string>)
    requires parts != [] && Dotless(parts)
    ensures Split(Joined(parts), '.') == parts
    decreases |parts|
  {
    if |parts| == 1 {
      SplitFirst(parts[0], "");
    } else {
      SplitFirst(parts[0], Joined(parts[1..]));
      SplitUndoesJoin(parts[1..]);
      assert parts == [parts[0]] + parts[1..];
    }
  }

  /** The object's first entry of this key holds the value. */
  predicate HasMember(v: Value, key: string, x: Value) {
    && v.Obj?
    && exists k | 0 <= k < |v.entries| ::
         v.entries[k] == Entry(key, x) && forall j | 0 <= j < k :: v.entries[j].key != key
  }

  /** Objects inside each other, each a member of the one before. */
  predicate Chain(values: seq<Value>, parts: seq<string>) {
    |values| == |parts| + 1 && forall i | 0 <= i < |parts| :: HasMember(values[i], parts[i], values[i + 1])
  }

  lemma {:induction false} MemberIsFirst(v: Value, entries: seq<Entry>, from: nat, key: string)
    requires v.Obj? && from <= |v.entries| && entries == v.entries[from..]
    requires forall j | 0 <= j < from :: v.entries[j].key != key
    ensures forall x :: Member(entries, key) == Some(x) <==> HasMember(v, key, x)
    decreases |entries|
  {
    if entries != [] {
      assert v.entries[from] == entries[0];
      if entries[0].key != key {
        MemberIsFirst(v, entries[1..], from + 1, key);
      } else {
        assert HasMember(v, key, entries[0].value);
      }
    }
  }

  lemma {:induction false} WalkFollows(v: Value, parts: seq<string>, values: seq<Value>)
    requires Chain(values, parts) && values[0] == v
    ensures Walk(v, parts) == Some(values[|parts|])
    decreases |parts|
  {
    if parts != [] {
      assert HasMember(values[0], parts[0], values[1]);
      MemberIsFirst(v, v.entries, 0, parts[0]);
      WalkFollows(values[1], parts[1..], values[1..]);
    }
  }

  lemma {:induction false} WalkedIsChain(v: Value, parts: seq<string>) returns (values: seq<Value>)
    requires Walk(v, parts).Some?
    ensures Chain(values, parts) && values[0] == v
    decreases |parts|
  {
    values := [v];
    if parts != [] {
      MemberIsFirst(v, v.entries, 0, parts[0]);
      var next := Member(v.entries, parts[0]).value;
      var rest := WalkedIsChain(next, parts[1..]);
      values := [v] + rest;
      assert HasMember(values[0], parts[0], values[1]);
    }
  }

  /** A path of keys leads from member to member; one that leads nowhere means
      null, and the empty path the whole value. */
  lemma FieldMeansMember(parts: seq<string>, root: Value, current: Option<Value>)
    requires parts != [] && Dotless(parts) && Joined(parts) != ""
    ensures var m := Meaning(Field(Joined(parts)), root, current);
            && (forall values | Chain(values, parts) && values[0] == root :: m == Some(values[|parts|]))
            && ((forall values | Chain(values, parts) :: values[0] != root) ==> m == Some(Null))
    ensures current.Some? ==>
              Meaning(CurrentField(Joined(parts)), root, current) == Meaning(Field(Joined(parts)), current.value, None)
    ensures Meaning(Field(""), root, current) == Some(root)
  {
    SplitUndoesJoin(parts);
    forall values | Chain(values, parts) && values[0] == root { WalkFollows(root, parts, values); }
    if Walk(root, parts).Some? { var values := WalkedIsChain(root, parts); }
  }
}
