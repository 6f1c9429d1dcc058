/** JSON values as the tool language sees them, and the bounded measurement of
    their size. A string is the sequence of its UTF-8 bytes, one character per
    byte. An object is its entries in key order, keys distinct. */
module Json {
  import opened Wrappers

  const MAX_VALUE_DEPTH: nat := 64

  /** `literal` identifies the number as stored (integer and float spellings
      differ); `order` is its place among all doubles in the IEEE total order. */
  datatype Number = Number(literal: int, order: int)

  datatype Entry = Entry(key: string, value: Value)

  datatype Value =
    | Null
    | Bool(flag: bool)
    | Num(number: Number)
    | Str(text: string)
    | Arr(items: seq<Value>)
    | Obj(entries: seq<Entry>)

  datatype Error = InvalidDefinition | Limit

  function Truthy(v: Value): bool { v == Bool(true) }

  // The size and the depth of a value, with no early exit.

  function SizeOf(v: Value): nat {
    match v
    case Null => 4
    case Bool(_) => 5
    case Num(_) => 32
    case Str(text) => |text| + 2
    case Arr(items) => 2 + ItemsSize(items)
    case Obj(entries) => 2 + EntriesSize(entries)
  }

  function ItemsSize(items: seq<Value>): nat {
    if items == [] then 0 else SizeOf(items[0]) + ItemsSize(items[1..])
  }

  function EntriesSize(entries: seq<Entry>): nat {
    if entries == [] then 0
    else |entries[0].key| + SizeOf(entries[0].value) + EntriesSize(entries[1..])
  }

  function DepthOf(v: Value): nat {
    match v
    case Arr(items) => ItemsDepth(items)
    case Obj(entries) => EntriesDepth(entries)
    case _ => 0
  }

  function Max(a: nat, b: nat): nat { if a < b then b else a }

  function ItemsDepth(items: seq<Value>): nat {
    if items == [] then 0 else Max(1 + DepthOf(items[0]), ItemsDepth(items[1..]))
  }

  function EntriesDepth(entries: seq<Entry>): nat {
    if entries == [] then 0 else Max(1 + DepthOf(entries[0].value), EntriesDepth(entries[1..]))
  }

  /** Measures a value, stopping at the first subvalue that is too deep and as
      soon as the running total passes the limit. The early exits never change
      the answer: it is the full size exactly when size and depth both fit. */
  method MeasureValue(v: Value, depth: nat, limit: nat) returns (r: Result<nat, Error>)
    ensures r == if depth + DepthOf(v) <= MAX_VALUE_DEPTH && SizeOf(v) <= limit then Ok(SizeOf(v)) else Err(Limit)
    decreases v, 1
  {
    if depth > MAX_VALUE_DEPTH {
      return Err(Limit);
    }
    var size: nat := 0;
    match v {
    case Null => size := 4;
    case Bool(_) => size := 5;
    case Num(_) => size := 32;
    case Str(text) => size := |text| + 2;
    case Arr(items) => size :- MeasureItems(v, items, depth, limit);
    case Obj(entries) => size :- MeasureEntries(v, entries, depth, limit);
    }
    if size > limit {
      return Err(Limit);
    }
    r := Ok(size);
  }

  method MeasureItems(ghost v: Value, items: seq<Value>, depth: nat, limit: nat) returns (r: Result<nat, Error>)
    requires v == Arr(items) && depth <= MAX_VALUE_DEPTH
    ensures r.Ok? && r.value <= limit <==> depth + DepthOf(v) <= MAX_VALUE_DEPTH && SizeOf(v) <= limit
    ensures r.Ok? && r.value <= limit ==> r.value == SizeOf(v)
    ensures r.Err? ==> r.error == Limit
    decreases v, 0
  {
    var total: nat := 2;
    for i := 0 to |items|
      invariant total + ItemsSize(items[i..]) == SizeOf(v)
      invariant depth + DepthOf(v) <= MAX_VALUE_DEPTH <==> depth + ItemsDepth(items[i..]) <= MAX_VALUE_DEPTH
    {
      ghost var rest := items[i..];
      assert rest[0] == items[i] && rest[1..] == items[i + 1..];
      var item :- MeasureValue(items[i], depth + 1, limit);
      total := total + item;
      if total > limit {
        break;
      }
    }
    r := Ok(total);
  }

  method MeasureEntries(ghost v: Value, entries: seq<Entry>, depth: nat, limit: nat) returns (r: Result<nat, Error>)
    requires v == Obj(entries) && depth <= MAX_VALUE_DEPTH
    ensures r.Ok? && r.value <= limit <==> depth + DepthOf(v) <= MAX_VALUE_DEPTH && SizeOf(v) <= limit
    ensures r.Ok? && r.value <= limit ==> r.value == SizeOf(v)
    ensures r.Err? ==> r.error == Limit
    decreases v, 0
  {
    var total: nat := 2;
    for i := 0 to |entries|
      invariant total + EntriesSize(entries[i..]) == SizeOf(v)
      invariant depth + DepthOf(v) <= MAX_VALUE_DEPTH <==> depth + EntriesDepth(entries[i..]) <= MAX_VALUE_DEPTH
    {
      ghost var rest := entries[i..];
      assert rest[0] == entries[i] && rest[1..] == entries[i + 1..];
      var item :- MeasureValue(entries[i].value, depth + 1, limit);
      total := total + |entries[i].key| + item;
      if total > limit {
        break;
      }
    }
    r := Ok(total);
  }
}
