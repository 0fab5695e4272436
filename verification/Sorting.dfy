/** `ORDER BY` over a set of rows, for any strict total order. */
module Sorting {
  import opened Basics

  predicate Strict<T(!new)>(s: set<T>, before: (T, T) -> bool) {
    && (forall x, y :: x in s && y in s && x != y ==> before(x, y) || before(y, x))
    && (forall x, y :: x in s && y in s && before(x, y) ==> !before(y, x))
    && (forall x, y, z :: x in s && y in s && z in s && before(x, y) && before(y, z) ==> before(x, z))
  }

  predicate Ascends<T>(a: seq<T>, before: (T, T) -> bool) {
    forall i, j :: 0 <= i < j < |a| ==> before(a[i], a[j])
  }

  function Elements<T(!new)>(a: seq<T>): set<T> { set x | x in a }

  lemma {:induction false} LastExists<T(!new)>(s: set<T>, before: (T, T) -> bool)
    requires Strict(s, before) && s != {}
    ensures exists m :: m in s && forall x :: x in s && x != m ==> before(x, m)
    decreases |s|
  {
    var m := Member(s);
    if s != {m} {
      LastExists(s - {m}, before);
      var r :| r in s - {m} && forall x :: x in s - {m} && x != r ==> before(x, r);
      var top := if before(r, m) then m else r;
      forall x | x in s && x != top ensures before(x, top) {
        assert x == m || x in s - {m};
      }
    }
  }

  function Last<T(!new)>(s: set<T>, before: (T, T) -> bool): (m: T)
    requires Strict(s, before) && s != {}
    ensures m in s && forall x :: x in s && x != m ==> before(x, m)
  {
    LastExists(s, before);
    var top :| top in s && forall x :: x in s && x != top ==> before(x, top);
    top
  }

  function Sort<T(!new)>(s: set<T>, before: (T, T) -> bool): (a: seq<T>)
    requires Strict(s, before)
    ensures Ascends(a, before) && |a| == |s| && forall x :: x in a <==> x in s
    decreases |s|
  {
    if s == {} then []
    else
      var m := Last(s, before);
      var rest := Sort(s - {m}, before);
      assert forall i :: 0 <= i < |rest| ==> rest[i] in rest && before(rest[i], m);
      rest + [m]
  }

  function Below<T(!new)>(s: set<T>, before: (T, T) -> bool, x: T): set<T> { set y | y in s && before(y, x) }

  /** An element's place in the list is the number of elements before it. */
  lemma PlaceIsCount<T(!new)>(s: set<T>, before: (T, T) -> bool, i: nat)
    requires Strict(s, before) && i < |s|
    ensures |Below(s, before, Sort(s, before)[i])| == i
    ensures Below(s, before, Sort(s, before)[i]) == Elements(Sort(s, before)[..i])
  {
    var a := Sort(s, before);
    assert a[i] in a;
    forall y | y in a[..i] ensures y in Below(s, before, a[i]) {
      var k :| 0 <= k < i && a[k] == y;
      assert a[k] in a;
    }
    forall k | i <= k < |a| ensures !before(a[k], a[i]) {
      assert a[k] in a && (k > i ==> before(a[i], a[k]));
    }
    forall y | y in Below(s, before, a[i]) ensures y in a[..i] {
      var k :| 0 <= k < |a| && a[k] == y;
    }
    assert Below(s, before, a[i]) == Elements(a[..i]);
    assert Elements(a) == s;
    PrefixSize(a, before, i);
  }

  lemma {:induction false} PrefixSize<T(!new)>(a: seq<T>, before: (T, T) -> bool, i: nat)
    requires i <= |a| && Ascends(a, before) && Strict(Elements(a), before)
    ensures |Elements(a[..i])| == i
  {
    if i == 0 {
      assert Elements(a[..i]) == {};
    } else {
      PrefixSize(a, before, i - 1);
      assert a[..i] == a[..i - 1] + [a[i - 1]];
      forall k | 0 <= k < i - 1 ensures a[k] != a[i - 1] {
        assert a[k] in Elements(a) && a[i - 1] in Elements(a) && before(a[k], a[i - 1]);
      }
      assert Elements(a[..i]) == Elements(a[..i - 1]) + {a[i - 1]};
    }
  }

  /** The first `n` elements are those with fewer than `n` before them. */
  lemma FirstAre<T(!new)>(s: set<T>, before: (T, T) -> bool, n: nat, x: T)
    requires Strict(s, before) && x in s
    ensures x in Sort(s, before)[..Least(n, |s|)] <==> |Below(s, before, x)| < n
  {
    var a := Sort(s, before);
    var i :| 0 <= i < |a| && a[i] == x;
    PlaceIsCount(s, before, i);
    forall k | 0 <= k < |a| && a[k] == x ensures k == i { PlaceIsCount(s, before, k); }
  }

  function Least(a: nat, b: nat): nat { if a <= b then a else b }
}
