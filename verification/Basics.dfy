/** Shared by every other module. */
module Basics {
  datatype Option<+T> = None | Some(value: T)

  predicate Distinct<T(==)>(s: seq<T>) { forall i, j :: 0 <= i < j < |s| ==> s[i] != s[j] }

  /** Some member of a set. */
  lemma Member<T>(s: set<T>) returns (x: T)
    requires s != {}
    ensures x in s
  {
    x :| x in s;
  }

  method AnyOf<T(==)>(s: set<T>) returns (x: T)
    requires s != {}
    ensures x in s
  {
    x :| x in s;
  }

  lemma {:induction false} MaxExists(s: set<int>)
    requires s != {}
    ensures exists m :: m in s && forall x :: x in s ==> x <= m
    decreases s
  {
    var m := Member(s);
    if s != {m} {
      MaxExists(s - {m});
      var r :| r in s - {m} && forall x :: x in s - {m} ==> x <= r;
      var top := if m > r then m else r;
      assert forall x :: x in s ==> x == m || x in s - {m};
      assert top in s && forall x :: x in s ==> x <= top;
    }
  }

  /** The head of an `ORDER BY id DESC` query, if it has one. */
  function Newest(s: set<int>): (r: Option<int>)
    ensures r.None? <==> s == {}
    ensures r.Some? ==> r.value in s && forall x :: x in s ==> x <= r.value
  {
    if s == {} then None
    else MaxExists(s); var m :| m in s && forall x :: x in s ==> x <= m; Some(m)
  }

  lemma {:induction false} Fewer<T>(a: set<T>, b: set<T>)
    requires a <= b
    ensures |a| <= |b|
    ensures |a| == |b| ==> a == b
  {
    assert b == a + (b - a);
    assert |b| == |a| + |b - a|;
    if |b - a| == 0 {
      assert b - a == {};
    }
  }
}
