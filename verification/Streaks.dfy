/** The activity overview's loops (`ui/backend/activity_overview.py`): streaks over a set of
    active days and the heatmap's daily counts. A day is its ordinal. */
module Streaks {
  import opened Basics

  /** The `n` days starting at `d` were all active. */
  predicate Block(days: set<int>, d: int, n: nat) {
    forall x :: d <= x < d + n ==> x in days
  }

  /** `n` is the greatest length of a run of consecutive active days. */
  ghost predicate IsLongest(days: set<int>, n: nat) {
    && (exists d :: Block(days, d, n))
    && (forall d, m: nat :: Block(days, d, m) ==> m <= n)
  }

  function Anchor(days: set<int>, today: int): int { if today in days then today else today - 1 }

  /** `n` is the length of the maximal block ending today, or yesterday while today is still
      open; zero when neither was active. */
  predicate IsCurrent(days: set<int>, today: int, n: nat) {
    var a := Anchor(days, today);
    Block(days, a - n + 1, n) && a - n !in days
  }

  // ------------------------------------------------------------------ sorted days

  predicate Ascending(a: seq<int>) { forall i, j :: 0 <= i < j < |a| ==> a[i] < a[j] }

  /** `sorted(active_days)` */
  function InOrder(days: set<int>): (a: seq<int>)
    ensures Ascending(a) && forall x :: x in a <==> x in days
    decreases |days|
  {
    if days == {} then []
    else var top := Newest(days).value; InOrder(days - {top}) + [top]
  }

  // ------------------------------------------------------------------ the streaks

  method LongestStreak(days: set<int>) returns (longest: nat)
    ensures IsLongest(days, longest)
  {
    var a := InOrder(days);
    longest := 0;
    var current := 0;
    var prev: Option<int> := None;
    ghost var start := 0;
    for i := 0 to |a|
      invariant prev == if i == 0 then None else Some(a[i - 1])
      invariant prev.Some? ==> EndsAt(days, prev.value, current) && NoLonger(days, prev.value, longest)
      invariant Block(days, start, longest)
    {
      var day := a[i];
      Gap(days, a, i);
      ghost var before, streak := longest, current;
      current := if prev.Some? && day == prev.value + 1 then current + 1 else 1;
      StreakStep(days, prev, streak, day, current);
      if current > longest {
        longest := current;
        start := day - current + 1;
      }
      OneMoreDayLonger(days, prev, day, current, before, longest);
      prev := Some(day);
    }
    NoneLeft(days, a, longest);
  }

  /** The maximal block ending at `day` has this length. */
  predicate EndsAt(days: set<int>, day: int, n: nat) {
    n >= 1 && Block(days, day - n + 1, n) && day - n !in days
  }

  lemma StreakStep(days: set<int>, prev: Option<int>, streak: nat, day: int, current: nat)
    requires day in days && current == if prev.Some? && day == prev.value + 1 then streak + 1 else 1
    requires if prev.None? then forall x :: x < day ==> x !in days else EndsAt(days, prev.value, streak) && prev.value < day && forall x :: prev.value < x < day ==> x !in days
    ensures EndsAt(days, day, current)
  {}

  lemma NoneLeft(days: set<int>, a: seq<int>, longest: nat)
    requires Ascending(a) && (forall x :: x in a <==> x in days) && (a != [] ==> NoLonger(days, a[|a| - 1], longest))
    ensures forall d, m: nat :: Block(days, d, m) ==> m <= longest
  {
    forall d, m: nat | Block(days, d, m) ensures m <= longest {
      if m > 0 {
        assert d + m - 1 in a;
      }
    }
  }

  /** No block ending by `last` is longer than `n`. */
  ghost predicate NoLonger(days: set<int>, last: int, n: nat) {
    forall d, m: nat :: m > 0 && Block(days, d, m) && d + m - 1 <= last ==> m <= n
  }

  lemma OneMoreDayLonger(days: set<int>, prev: Option<int>, day: int, current: nat, before: nat, longest: nat)
    requires EndsAt(days, day, current) && longest >= before && longest >= current
    requires if prev.None? then forall x :: x < day ==> x !in days else NoLonger(days, prev.value, before) && forall x :: prev.value < x < day ==> x !in days
    ensures NoLonger(days, day, longest)
  {
    forall d, m: nat | m > 0 && Block(days, d, m) && d + m - 1 <= day ensures m <= longest {
      assert d + m - 1 in days;
      if d + m - 1 == day {
        assert d > day - current || day - current in days;
      }
    }
  }

  /** Nothing is active between two neighbours in the sorted list. */
  lemma Gap(days: set<int>, a: seq<int>, i: nat)
    requires Ascending(a) && (forall x :: x in a <==> x in days) && i < |a|
    ensures a[i] in days
    ensures if i == 0 then forall x :: x < a[0] ==> x !in days else forall x :: a[i - 1] < x < a[i] ==> x !in days
  {}

  method CurrentStreak(days: set<int>, today: int) returns (streak: nat)
    ensures IsCurrent(days, today, streak)
  {
    var anchor := if today in days then today else today - 1;
    if anchor !in days {
      return 0;
    }
    streak := 0;
    var day := anchor;
    ghost var left := days;
    while day in days
      invariant day == anchor - streak && Block(days, day + 1, streak)
      invariant left <= days && forall x :: x in days && x <= day ==> x in left
      decreases left
    {
      streak := streak + 1;
      left := left - {day};
      day := day - 1;
    }
  }

  /** Both contracts leave one answer, and the current streak is never the longer one. */
  lemma StreaksAreDetermined(days: set<int>, today: int, longest: nat, longest': nat, current: nat, current': nat)
    requires IsLongest(days, longest) && IsLongest(days, longest')
    requires IsCurrent(days, today, current) && IsCurrent(days, today, current')
    ensures longest == longest' && current == current' && current <= longest
    ensures current == 0 <==> today !in days && today - 1 !in days
  {}

  // ------------------------------------------------------------------ the heatmap

  function Count(runs: seq<int>, day: int): nat {
    if runs == [] then 0 else (if runs[|runs| - 1] == day then 1 else 0) + Count(runs[..|runs| - 1], day)
  }

  /** The runs dated from one day to another, both included. */
  function CountWithin(runs: seq<int>, from: int, to: int): nat {
    if runs == [] then 0 else (if from <= runs[|runs| - 1] <= to then 1 else 0) + CountWithin(runs[..|runs| - 1], from, to)
  }

  function Sum(counts: seq<nat>): nat {
    if counts == [] then 0 else counts[|counts| - 1] + Sum(counts[..|counts| - 1])
  }

  method DailyCounts(runs: seq<int>, today: int, weeks: int) returns (counts: seq<nat>)
    ensures |counts| == if weeks > 0 then 7 * weeks else 0
    ensures forall i :: 0 <= i < |counts| ==> counts[i] == Count(runs, today - (7 * weeks - 1) + i)
    ensures Sum(counts) == CountWithin(runs, today - (7 * weeks - 1), today)
  {
    var start := today - (weeks * 7 - 1);
    var tally: map<int, nat> := map[];
    for i := 0 to |runs|
      invariant forall d :: d >= start ==> Count(runs[..i], d) == if d in tally then tally[d] else 0
    {
      assert runs[..i + 1][..i] == runs[..i];
      if runs[i] >= start {
        tally := tally[runs[i] := (if runs[i] in tally then tally[runs[i]] else 0) + 1];
      }
    }
    assert runs[..|runs|] == runs;
    counts := [];
    var n := if weeks > 0 then 7 * weeks else 0;
    for i := 0 to n
      invariant |counts| == i
      invariant forall j :: 0 <= j < i ==> counts[j] == Count(runs, start + j)
    {
      counts := counts + [if start + i in tally then tally[start + i] else 0];
    }
    SumIsWithin(runs, start, counts);
    if weeks <= 0 {
      NothingWithin(runs, start, today);
    }
  }

  lemma {:induction false} SumIsWithin(runs: seq<int>, start: int, counts: seq<nat>)
    requires forall j :: 0 <= j < |counts| ==> counts[j] == Count(runs, start + j)
    ensures Sum(counts) == CountWithin(runs, start, start + |counts| - 1)
  {
    if counts == [] {
      NothingWithin(runs, start, start - 1);
    } else {
      var n := |counts| - 1;
      SumIsWithin(runs, start, counts[..n]);
      OneMoreDay(runs, start, start + n);
    }
  }

  lemma {:induction false} NothingWithin(runs: seq<int>, from: int, to: int)
    requires to < from
    ensures CountWithin(runs, from, to) == 0
  {
    if runs != [] { NothingWithin(runs[..|runs| - 1], from, to); }
  }

  lemma {:induction false} OneMoreDay(runs: seq<int>, from: int, to: int)
    requires from <= to
    ensures CountWithin(runs, from, to) == CountWithin(runs, from, to - 1) + Count(runs, to)
  {
    if runs != [] { OneMoreDay(runs[..|runs| - 1], from, to); }
  }

  /** A run dated after today is counted in sessions but not in the heatmap. */
  lemma FutureRunsAreOutside(runs: seq<int>, today: int, weeks: int, r: int)
    requires r > today
    ensures CountWithin(runs + [r], today - (7 * weeks - 1), today) == CountWithin(runs, today - (7 * weeks - 1), today)
  {}
}
