/** The migration's statements one by one: version numbers stay unique within a skill at the
    end of each, and the merged history comes out numbered in order of creation. */
module SkillMerge {
  import opened Basics
  import opened SkillTables
  import Sorting

  /** The table's `(skill_id, version_number)` constraint. */
  predicate UniqueNumbers(vs: Versions) {
    forall a, b :: a in vs && b in vs && a != b && vs[a].skill == vs[b].skill ==> vs[a].number != vs[b].number
  }

  /** Real version numbers leave room for the two shifts. */
  predicate Numbered(vs: Versions) {
    && UniqueNumbers(vs) && |vs| < RENUMBER_SHIFT
    && forall v :: v in vs ==> 1 <= vs[v].number < RENUMBER_SHIFT
  }

  // ------------------------------------------------------------------ the statements

  function Shift(vs: Versions, skill: SkillId): Versions {
    map v | v in vs :: if vs[v].skill == skill then vs[v].(number := vs[v].number + RENUMBER_SHIFT) else vs[v]
  }

  function Repoint(vs: Versions, from: SkillId, into: SkillId): Versions {
    map v | v in vs :: if vs[v].skill == from then vs[v].(skill := into) else vs[v]
  }

  predicate InOrder(vs: Versions, ids: seq<VersionId>)
  {
    (forall i :: 0 <= i < |ids| ==> ids[i] in vs) && forall i, j :: 0 <= i < j < |ids| ==> Before(vs, ids[i], ids[j])
  }

  function ByCreation(vs: Versions): (VersionId, VersionId) -> bool { (a, b) => a in vs && b in vs && Before(vs, a, b) }

  lemma CreationIsStrict(vs: Versions, rows: set<VersionId>)
    requires rows <= vs.Keys
    ensures Sorting.Strict(rows, ByCreation(vs))
  {}

  /** `SELECT id ... ORDER BY created_at, id` */
  function Ordered(vs: Versions, rows: set<VersionId>): (ids: seq<VersionId>)
    requires rows <= vs.Keys
    ensures InOrder(vs, ids) && |ids| == |rows| && forall v :: v in ids <==> v in rows
  {
    CreationIsStrict(vs, rows);
    var ids := Sorting.Sort(rows, ByCreation(vs));
    assert forall i, j :: 0 <= i < j < |ids| ==> ByCreation(vs)(ids[i], ids[j]);
    ids
  }

  /** A row's place in the ordered list is the number of rows before it. */
  lemma PlaceIsCount(vs: Versions, rows: set<VersionId>, i: nat)
    requires rows <= vs.Keys && i < |rows|
    ensures |Earlier(vs, rows, Ordered(vs, rows)[i])| == i
  {
    CreationIsStrict(vs, rows);
    Sorting.PlaceIsCount(rows, ByCreation(vs), i);
    assert Earlier(vs, rows, Ordered(vs, rows)[i]) == Sorting.Below(rows, ByCreation(vs), Ordered(vs, rows)[i]);
  }

  // ------------------------------------------------------------------ the merge, step by step

  /** The table after the first `n` rows of the list have their final number. */
  predicate RenumberedTo(start: Versions, now: Versions, ids: seq<VersionId>, n: nat)
    requires n <= |ids|
  {
    && now.Keys == start.Keys
    && (forall i :: 0 <= i < n && ids[i] in now ==> now[ids[i]] == start[ids[i]].(number := i + 1))
    && (forall v :: v in now && v !in ids[..n] ==> now[v] == start[v])
  }

  lemma RenumberStep(start: Versions, now: Versions, ids: seq<VersionId>, n: nat)
    requires n < |ids| && InOrder(start, ids) && RenumberedTo(start, now, ids, n)
    ensures ids[n] in now && RenumberedTo(start, now[ids[n] := now[ids[n]].(number := n + 1)], ids, n + 1)
  {
    var x := ids[n];
    forall i | 0 <= i < n ensures ids[i] != x { assert Before(start, ids[i], x); }
    assert x in now && x !in ids[..n];
    assert now[x] == start[x];
    assert ids[..n + 1] == ids[..n] + [x];
  }

  /** No number is given out twice on the way: those still to come stay above the shift. */
  lemma RenumberingIsUnique(start: Versions, now: Versions, skill: SkillId, ids: seq<VersionId>, n: nat)
    requires n <= |ids| <= RENUMBER_SHIFT && InOrder(start, ids) && (forall v :: v in ids <==> v in RowsOf(start, skill))
    requires UniqueNumbers(start) && forall v :: v in RowsOf(start, skill) ==> start[v].number > RENUMBER_SHIFT
    requires RenumberedTo(start, now, ids, n)
    ensures UniqueNumbers(now)
  {
    forall a, b | a in now && b in now && a != b && now[a].skill == now[b].skill ensures now[a].number != now[b].number {
      Renumber(start, now, skill, ids, n, a);
      Renumber(start, now, skill, ids, n, b);
    }
  }

  lemma Renumber(start: Versions, now: Versions, skill: SkillId, ids: seq<VersionId>, n: nat, v: VersionId)
    requires n <= |ids| <= RENUMBER_SHIFT && InOrder(start, ids) && (forall x :: x in ids <==> x in RowsOf(start, skill))
    requires forall x :: x in RowsOf(start, skill) ==> start[x].number > RENUMBER_SHIFT
    requires RenumberedTo(start, now, ids, n) && v in now
    ensures now[v].skill == start[v].skill
    ensures if v in ids[..n] then start[v].skill == skill && 1 <= now[v].number <= n && ids[now[v].number - 1] == v
            else now[v] == start[v] && (start[v].skill == skill ==> now[v].number > RENUMBER_SHIFT)
  {
    if v in ids[..n] {
      var i :| 0 <= i < n && ids[i] == v;
      assert v in ids;
    }
  }

  /** The version table at the end of each statement: the old rows moved aside, pointed at the
      new skill, all its rows moved aside, and then one row after another, in order of creation,
      given its number. It is unique at every one. */
  ghost predicate MergeTrace(vs: Versions, from: SkillId, into: SkillId, trace: seq<Versions>) {
    var rows := RowsOf(vs, from) + RowsOf(vs, into);
    && |trace| == 3 + |rows|
    && trace[0] == Shift(vs, from) && trace[1] == Repoint(trace[0], from, into) && trace[2] == Shift(trace[1], into)
    && RowsOf(trace[2], into) == rows
    && Renumbers(trace[2], Ordered(trace[2], rows), trace[2..])
    && forall t :: t in trace ==> UniqueNumbers(t)
  }

  /** One row of the list after another gets its number. */
  predicate Renumbers(start: Versions, ids: seq<VersionId>, trace: seq<Versions>) {
    |trace| == 1 + |ids| && trace[0] == start && forall n :: 0 <= n < |trace| ==> RenumberedTo(start, trace[n], ids, n)
  }

  lemma ThreeStatements(vs: Versions, from: SkillId, into: SkillId, numbering: seq<Versions>)
    requires Numbered(vs) && from != into && (forall t :: t in numbering ==> UniqueNumbers(t))
    requires var start := Shift(Repoint(Shift(vs, from), from, into), into);
      Renumbers(start, Ordered(start, RowsOf(start, into)), numbering)
    ensures MergeTrace(vs, from, into, [Shift(vs, from), Repoint(Shift(vs, from), from, into)] + numbering)
  {
    var start := Shift(Repoint(Shift(vs, from), from, into), into);
    var trace := [Shift(vs, from), Repoint(Shift(vs, from), from, into)] + numbering;
    MovedAside(vs, start, from, into);
    ShiftsAreUnique(vs, from, into);
    assert trace[2..] == numbering;
  }

  /** `_merge_or_rename` on two skills that both exist, one statement after another. */
  method MergeHistories(vs: Versions, from: SkillId, into: SkillId) returns (merged: Versions, ghost trace: seq<Versions>)
    requires Numbered(vs) && from != into
    ensures merged == MergedVersions(vs, from, into)
    ensures MergeTrace(vs, from, into, trace) && merged == trace[|trace| - 1]
  {
    var vs1 := Shift(vs, from);
    var vs2 := Repoint(vs1, from, into);
    var vs3 := Shift(vs2, into);
    ShiftsAreUnique(vs, from, into);
    ghost var rows := RowsOf(vs, from) + RowsOf(vs, into);
    assert RowsOf(vs3, into) == rows;
    Fewer(rows, vs.Keys);
    ghost var numbering;
    merged, numbering := RenumberByCreation(vs3, into);
    trace := [vs1, vs2] + numbering;
    ThreeStatements(vs, from, into, numbering);
    MergedIs(vs, vs3, merged, from, into);
  }

  method RenumberByCreation(start: Versions, skill: SkillId) returns (now: Versions, ghost trace: seq<Versions>)
    requires |RowsOf(start, skill)| <= RENUMBER_SHIFT && UniqueNumbers(start)
    requires forall v :: v in RowsOf(start, skill) ==> start[v].number > RENUMBER_SHIFT
    ensures Renumbers(start, Ordered(start, RowsOf(start, skill)), trace) && now == trace[|trace| - 1]
    ensures forall t :: t in trace ==> UniqueNumbers(t)
  {
    var ids := Ordered(start, RowsOf(start, skill));
    now, trace := start, [start];
    for n := 0 to |ids|
      invariant |trace| == n + 1 && trace[0] == start && trace[n] == now
      invariant forall i :: 0 <= i <= n ==> RenumberedTo(start, trace[i], ids, i)
      invariant forall t :: t in trace ==> UniqueNumbers(t)
    {
      RenumberStep(start, now, ids, n);
      now := now[ids[n] := now[ids[n]].(number := n + 1)];
      RenumberingIsUnique(start, now, skill, ids, n + 1);
      trace := trace + [now];
    }
  }

  lemma ShiftsAreUnique(vs: Versions, from: SkillId, into: SkillId)
    requires Numbered(vs) && from != into
    ensures var vs1 := Shift(vs, from); var vs2 := Repoint(vs1, from, into); var vs3 := Shift(vs2, into);
      UniqueNumbers(vs1) && UniqueNumbers(vs2) && UniqueNumbers(vs3)
      && forall v :: v in RowsOf(vs3, into) ==> vs3[v].number > RENUMBER_SHIFT
  {}

  lemma MergedIs(vs: Versions, start: Versions, merged: Versions, from: SkillId, into: SkillId)
    requires from != into && start == Shift(Repoint(Shift(vs, from), from, into), into)
    requires RenumberedTo(start, merged, Ordered(start, RowsOf(start, into)), |RowsOf(start, into)|)
    ensures merged == MergedVersions(vs, from, into)
  {
    MovedAside(vs, start, from, into);
    RankedIsMerged(vs, start, merged, from, into, RowsOf(vs, from) + RowsOf(vs, into));
  }

  lemma RankedIsMerged(vs: Versions, start: Versions, merged: Versions, from: SkillId, into: SkillId, rows: set<VersionId>)
    requires rows == RowsOf(vs, from) + RowsOf(vs, into) && Aside(vs, start, into, rows)
    requires RenumberedTo(start, merged, Ordered(start, rows), |rows|)
    ensures merged == MergedVersions(vs, from, into)
  {
    var ids := Ordered(start, rows);
    forall v | v in vs ensures merged[v] == MergedVersions(vs, from, into)[v] {
      if v in rows {
        RankedAt(vs, start, merged, into, rows, ids, v);
      } else {
        assert v !in ids;
      }
    }
    assert merged.Keys == MergedVersions(vs, from, into).Keys;
  }

  /** Before the renumbering: everything but skill and number is as it was. */
  predicate Aside(vs: Versions, start: Versions, into: SkillId, rows: set<VersionId>) {
    && start.Keys == vs.Keys && rows <= vs.Keys
    && (forall v :: v in vs && v !in rows ==> start[v] == vs[v])
    && (forall v :: v in rows ==> start[v] == vs[v].(skill := into, number := start[v].number))
  }

  lemma MovedAside(vs: Versions, start: Versions, from: SkillId, into: SkillId)
    requires from != into && start == Shift(Repoint(Shift(vs, from), from, into), into)
    ensures var rows := RowsOf(vs, from) + RowsOf(vs, into); RowsOf(start, into) == rows && Aside(vs, start, into, rows)
  {}

  lemma RankedAt(vs: Versions, start: Versions, merged: Versions, into: SkillId, rows: set<VersionId>, ids: seq<VersionId>, v: VersionId)
    requires Aside(vs, start, into, rows) && ids == Ordered(start, rows)
    requires RenumberedTo(start, merged, ids, |ids|) && v in rows
    ensures merged[v] == vs[v].(skill := into, number := 1 + |Earlier(vs, rows, v)|)
  {
    var i :| 0 <= i < |ids| && ids[i] == v;
    PlaceIsCount(start, rows, i);
    SameOrder(vs, start, rows, v);
  }

  lemma SameOrder(vs: Versions, start: Versions, rows: set<VersionId>, v: VersionId)
    requires rows <= vs.Keys && start.Keys == vs.Keys && v in vs && forall x :: x in vs ==> start[x].created == vs[x].created
    ensures Earlier(start, rows, v) == Earlier(vs, rows, v)
  {}
}
