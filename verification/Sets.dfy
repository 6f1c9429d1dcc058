/** Small facts about finite sets. */
module Sets {
  lemma EmptyIfNone<T>(s: set<T>)
    requires forall x :: x !in s
    ensures s == {}
  {
  }

  lemma Inhabited<T>(s: set<T>)
    requires s != {}
    ensures exists x :: x in s
  {
    if forall x :: x !in s { EmptyIfNone(s); }
  }

  lemma Member<T>(s: set<T>) returns (x: T)
    requires s != {}
    ensures x in s
  {
    Inhabited(s);
    x :| x in s;
  }

  /** Some member: the rows of an unordered query come in no particular order. */
  method AnyOf<T(==)>(s: set<T>) returns (x: T)
    requires s != {}
    ensures x in s
  {
    Inhabited(s);
    x :| x in s;
  }

  lemma {:induction false} SubsetIsSmaller<T>(a: set<T>, b: set<T>)
    requires a <= b
    ensures |a| <= |b|
    decreases |a|
  {
    if a != {} {
      var x := Member(a);
      SubsetIsSmaller(a - {x}, b - {x});
    }
  }

  lemma LeastExists(s: set<int>)
    requires s != {}
    ensures exists x :: x in s && forall y | y in s :: x <= y
    decreases |s|
  {
    var x := Member(s);
    if s != {x} {
      var rest := s - {x};
      assert s == rest + {x};
      LeastExists(rest);
      var m :| m in rest && forall y | y in rest :: m <= y;
      assert (if m <= x then m else x) in s;
    }
  }

  function Least(s: set<int>): (x: int)
    requires s != {}
    ensures x in s && forall y | y in s :: x <= y
  {
    LeastExists(s);
    var x :| x in s && forall y | y in s :: x <= y;
    x
  }

  function Ascending(s: set<int>): seq<int>
    decreases |s|
  {
    if s == {} then [] else [Least(s)] + Ascending(s - {Least(s)})
  }

  /** The members in order, each once. */
  lemma {:induction false} AscendingLists(s: set<int>)
    ensures var r := Ascending(s);
            && (forall x :: x in r <==> x in s)
            && (forall i, j | 0 <= i < j < |r| :: r[i] < r[j])
    decreases |s|
  {
    if s != {} {
      var x := Least(s);
      var rest := Ascending(s - {x});
      AscendingLists(s - {x});
      assert forall i | 0 <= i < |rest| :: rest[i] in rest;
      assert forall y :: y in [x] + rest <==> y == x || y in rest;
    }
  }
}
