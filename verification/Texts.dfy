/** The order of texts by their bytes. */
module Texts {

  /** Negative, zero or positive as the first text comes before, is, or comes
      after the second. */
  function Order(a: string, b: string): int {
    if a == "" && b == "" then 0
    else if a == "" then -1
    else if b == "" then 1
    else if a[0] != b[0] then a[0] as int - b[0] as int
    else Order(a[1..], b[1..])
  }

  /** A proper prefix comes first, and else the first byte in which the two
      differ decides. */
  predicate Less(a: string, b: string) {
    exists i | 0 <= i <= |a| && i < |b| :: a[..i] == b[..i] && (i < |a| ==> a[i] < b[i])
  }

  lemma LessAt(a: string, b: string, i: nat)
    requires i <= |a| && i < |b| && a[..i] == b[..i] && (i < |a| ==> a[i] < b[i])
    ensures Less(a, b)
  {
  }

  lemma {:induction false} NotBothWays(a: string, b: string)
    requires Less(a, b)
    ensures !Less(b, a) && a != b
  {
    var i :| 0 <= i <= |a| && i < |b| && a[..i] == b[..i] && (i < |a| ==> a[i] < b[i]);
  }

  lemma {:induction false} OrderIsLess(a: string, b: string)
    ensures Order(a, b) < 0 <==> Less(a, b)
    ensures 0 < Order(a, b) <==> Less(b, a)
    ensures Order(a, b) == 0 <==> a == b
  {
    if a != "" && b != "" && a[0] == b[0] {
      OrderIsLess(a[1..], b[1..]);
      LessAfterFirst(a, b);
      LessAfterFirst(b, a);
      assert a == [a[0]] + a[1..] && b == [b[0]] + b[1..];
    } else {
      if a == "" && b != "" { LessAt(a, b, 0); NotBothWays(a, b); }
      if b == "" && a != "" { LessAt(b, a, 0); NotBothWays(b, a); }
      if a != "" && b != "" {
        if a[0] < b[0] { LessAt(a, b, 0); NotBothWays(a, b); } else { LessAt(b, a, 0); NotBothWays(b, a); }
      }
    }
  }

  lemma LessAfterFirst(a: string, b: string)
    requires a != "" && b != "" && a[0] == b[0]
    ensures Less(a, b) <==> Less(a[1..], b[1..])
  {
    if Less(a, b) { LessOfRests(a, b); }
    if Less(a[1..], b[1..]) { LessOfWholes(a, b); }
  }

  lemma LessOfRests(a: string, b: string)
    requires a != "" && b != "" && a[0] == b[0] && Less(a, b)
    ensures Less(a[1..], b[1..])
  {
    var i :| 0 <= i <= |a| && i < |b| && a[..i] == b[..i] && (i < |a| ==> a[i] < b[i]);
    RestOfPrefix(a, i);
    RestOfPrefix(b, i);
    LessAt(a[1..], b[1..], i - 1);
  }

  lemma RestOfPrefix(a: string, i: nat)
    requires 1 <= i <= |a|
    ensures a[1..][..i - 1] == a[..i][1..]
  {
  }

  lemma LessOfWholes(a: string, b: string)
    requires a != "" && b != "" && a[0] == b[0] && Less(a[1..], b[1..])
    ensures Less(a, b)
  {
    var x, y := a[1..], b[1..];
    var i :| 0 <= i <= |x| && i < |y| && x[..i] == y[..i] && (i < |x| ==> x[i] < y[i]);
    FirstAndRest(a, i);
    FirstAndRest(b, i);
    LessAt(a, b, i + 1);
  }

  lemma FirstAndRest(a: string, i: nat)
    requires a != "" && i < |a|
    ensures a[..i + 1] == [a[0]] + a[1..][..i]
  {
  }

  lemma {:induction false} OrdersInTurn(a: string, b: string, c: string)
    ensures Order(a, a) == 0 && (Order(a, b) < 0 <==> Order(b, a) > 0)
    ensures Order(a, b) <= 0 && Order(b, c) <= 0 ==> Order(a, c) <= 0
    ensures Order(a, b) < 0 && Order(b, c) <= 0 ==> Order(a, c) < 0
    ensures Order(a, b) <= 0 && Order(b, c) < 0 ==> Order(a, c) < 0
    decreases |a|
  {
    if a != "" {
      OrdersInTurn(a[1..], if b == "" then "" else b[1..], if c == "" then "" else c[1..]);
    }
  }
}
