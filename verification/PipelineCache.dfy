/** The compiled-pipeline cache (`ui/backend/main.py`): a store guarded by a generation
    counter, an invalidation that clears and bumps it, and a fingerprint in every key. */
module PipelineCache {
  import opened Basics

  // ------------------------------------------------------------------ the fingerprint

  datatype Row = Row(updatedAt: int, content: int)
  type Table = map<int, Row>

  datatype Summary = Summary(count: nat, latest: Option<int>)

  function Stamps(t: Table): set<int> { set k | k in t :: t[k].updatedAt }

  /** `count(id), max(updated_at)` */
  function Summarise(t: Table): Summary { Summary(|t|, Newest(Stamps(t))) }

  /** The three tables a compiled pipeline takes parts from. */
  datatype Tables = Tables(skills: Table, bases: Table, mail: Table)
  datatype Fingerprint = Fingerprint(skills: Summary, bases: Summary, mail: Summary)

  function Freshness(t: Tables): Fingerprint {
    Fingerprint(Summarise(t.skills), Summarise(t.bases), Summarise(t.mail))
  }

  /** One commit: rows are added or updated with a timestamp after every earlier one, or
      deleted. */
  predicate Committed(a: Table, b: Table, before: int) {
    forall k :: k in b ==> (k in a && a[k] == b[k]) || b[k].updatedAt > before
  }

  predicate NotAfter(t: Table, clock: int) { forall k :: k in t ==> t[k].updatedAt <= clock }

  /** `tables[i]` as of `clocks[i]`, one commit apart. */
  predicate History(tables: seq<Table>, clocks: seq<int>) {
    && |tables| == |clocks|
    && (forall i :: 0 <= i < |tables| ==> NotAfter(tables[i], clocks[i]))
    && (forall i, j :: 0 <= i < j < |clocks| ==> clocks[i] <= clocks[j])
    && (forall i :: 0 < i < |tables| ==> Committed(tables[i - 1], tables[i], clocks[i - 1]))
  }

  /** A row is as it was at `i`, or was stamped since. */
  lemma {:induction false} RowsSince(tables: seq<Table>, clocks: seq<int>, i: nat, j: nat)
    requires History(tables, clocks) && i <= j < |tables|
    ensures Committed(tables[i], tables[j], clocks[i])
    decreases j - i
  {
    if i < j {
      RowsSince(tables, clocks, i, j - 1);
      assert Committed(tables[j - 1], tables[j], clocks[j - 1]);
    }
  }

  lemma SubsetOfSameSize(a: Table, b: Table)
    requires |a| == |b| && forall k :: k in b ==> k in a && a[k] == b[k]
    ensures a == b
  {
    forall k | k in b.Keys ensures k in a.Keys { assert k in b; }
    Fewer(b.Keys, a.Keys);
    assert |a| == |a.Keys| && |b| == |b.Keys|;
    assert a.Keys == b.Keys;
    assert forall k :: k in a.Keys ==> k in b && a[k] == b[k];
  }

  /** With timestamps that only move forward, an equal summary is an equal table, however many
      additions, updates and deletions came between. */
  lemma SummaryIsFaithful(tables: seq<Table>, clocks: seq<int>, i: nat, j: nat)
    requires History(tables, clocks) && i <= j < |tables| && Summarise(tables[i]) == Summarise(tables[j])
    ensures tables[i] == tables[j]
  {
    var a, b := tables[i], tables[j];
    RowsSince(tables, clocks, i, j);
    forall k | k in b ensures k in a && a[k] == b[k] {
      assert b[k].updatedAt in Stamps(b);
      var top := Newest(Stamps(b)).value;
      assert top in Stamps(a);
      var x :| x in a && a[x].updatedAt == top;
      assert b[k].updatedAt <= a[x].updatedAt <= clocks[i];
    }
    SubsetOfSameSize(a, b);
  }

  ghost predicate AllHistories(tables: seq<Tables>, clocks: seq<int>) {
    && History(seq(|tables|, i requires 0 <= i < |tables| => tables[i].skills), clocks)
    && History(seq(|tables|, i requires 0 <= i < |tables| => tables[i].bases), clocks)
    && History(seq(|tables|, i requires 0 <= i < |tables| => tables[i].mail), clocks)
  }

  lemma FreshnessIsFaithful(tables: seq<Tables>, clocks: seq<int>, i: nat, j: nat)
    requires AllHistories(tables, clocks) && i <= j < |tables| && Freshness(tables[i]) == Freshness(tables[j])
    ensures tables[i] == tables[j]
  {
    SummaryIsFaithful(seq(|tables|, i requires 0 <= i < |tables| => tables[i].skills), clocks, i, j);
    SummaryIsFaithful(seq(|tables|, i requires 0 <= i < |tables| => tables[i].bases), clocks, i, j);
    SummaryIsFaithful(seq(|tables|, i requires 0 <= i < |tables| => tables[i].mail), clocks, i, j);
  }

  /** The timestamp alone would not do: deleting a row that is not the newest leaves it. */
  lemma MaximumAloneIsNotFaithful()
    ensures var a, b := map[1 := Row(5, 0), 2 := Row(9, 0)], map[2 := Row(9, 0)];
      History([a, b], [9, 9]) && Newest(Stamps(a)) == Newest(Stamps(b)) && a != b
  {
    var a, b := map[1 := Row(5, 0), 2 := Row(9, 0)], map[2 := Row(9, 0)];
    assert a[2].updatedAt in Stamps(a) && b[2].updatedAt in Stamps(b);
    assert forall x :: x in Stamps(a) ==> x <= 9;
    assert 1 in a && 1 !in b;
  }

  // ------------------------------------------------------------------ the cache itself

  type Key = int

  /** What a key's pipeline was requested for: its record's timestamp and the fingerprint. */
  datatype Stamp = Stamp(record: int, freshness: Fingerprint)

  /** A cached pipeline, with the first and last database version its build read. */
  datatype Entry = Entry(stamp: Stamp, stampedAt: nat, first: nat, last: nat)

  class Cache {
    var entries: map<Key, Entry>
    var generation: nat

    constructor ()
      ensures entries == map[] && generation == 0
    {
      entries, generation := map[], 0;
    }

    /** `_store_pipeline_in_cache`: a no-op once an invalidation has come between. */
    method Store(key: Key, e: Entry, snapshot: nat)
      modifies this`entries
      ensures entries == Stored(old(entries), generation, key, e, snapshot)
    {
      if snapshot == generation {
        entries := entries[key := e];
      }
    }

    /** `_invalidate_pipeline_cache` */
    method Invalidate()
      modifies this
      ensures entries == map[] && generation == old(generation) + 1
    {
      entries := map[];
      generation := generation + 1;
    }

    method Lookup(key: Key, stamp: Stamp) returns (e: Option<Entry>)
      ensures e.Some? <==> key in entries && entries[key].stamp == stamp
      ensures e.Some? ==> e.value == entries[key] && e.value.stamp == stamp
    {
      if key in entries && entries[key].stamp == stamp {
        return Some(entries[key]);
      }
      return None;
    }
  }

  function Stored(entries: map<Key, Entry>, generation: nat, key: Key, e: Entry, snapshot: nat): map<Key, Entry> {
    if snapshot == generation then entries[key := e] else entries
  }

  function Found(entries: map<Key, Entry>, key: Key, stamp: Stamp): Option<Entry> {
    if key in entries && entries[key].stamp == stamp then Some(entries[key]) else None
  }

  // ------------------------------------------------------------------ interleavings

  /** A request between its first line and its answer. `seen` is the invalidations that had
      completed when it began. */
  datatype Request = Request(key: Key, snapshot: nat, seen: set<nat>, stamp: Option<Stamp>, stampedAt: nat, span: Option<(nat, nat)>)

  /** The database's version counts commits; `pending` holds the commits whose invalidation is
      still to come, `completed` those whose invalidation has run, and `answers` what every
      answered request had seen with the pipeline it was given. */
  datatype World = World(
    version: nat, pending: set<nat>, completed: set<nat>,
    generation: nat, entries: map<Key, Entry>,
    requests: map<int, Request>, answers: seq<(set<nat>, Entry)>)

  datatype Step =
    | Commit
    | Invalidate(commit: nat)
    | Begin(id: int, key: Key)
    | ReadStamp(id: int, stamp: Stamp)
    | TryCache(id: int)
    | ReadPart(id: int)
    | Finish(id: int)

  function Built(r: Request): Entry
    requires r.stamp.Some? && r.span.Some?
  {
    Entry(r.stamp.value, r.stampedAt, r.span.value.0, r.span.value.1)
  }

  function Apply(w: World, s: Step): World {
    match s
    case Commit => w.(version := w.version + 1, pending := w.pending + {w.version + 1})
    case Invalidate(c) =>
      if c in w.pending
      then w.(entries := map[], generation := w.generation + 1, pending := w.pending - {c}, completed := w.completed + {c})
      else w
    case Begin(id, key) => w.(requests := w.requests[id := Request(key, w.generation, w.completed, None, 0, None)])
    case ReadStamp(id, stamp) =>
      if id in w.requests && w.requests[id].stamp.None?
      then w.(requests := w.requests[id := w.requests[id].(stamp := Some(stamp), stampedAt := w.version)]) else w
    case TryCache(id) =>
      if id in w.requests && w.requests[id].stamp.Some? && Found(w.entries, w.requests[id].key, w.requests[id].stamp.value).Some?
      then w.(requests := w.requests - {id},
              answers := w.answers + [(w.requests[id].seen, Found(w.entries, w.requests[id].key, w.requests[id].stamp.value).value)])
      else w
    case ReadPart(id) =>
      if id in w.requests && w.requests[id].stamp.Some?
      then w.(requests := w.requests[id := w.requests[id].(span :=
             Some((if w.requests[id].span.Some? then w.requests[id].span.value.0 else w.version, w.version)))]) else w
    case Finish(id) =>
      if id in w.requests && w.requests[id].stamp.Some? && w.requests[id].span.Some?
      then var r := w.requests[id];
           w.(entries := Stored(w.entries, w.generation, r.key, Built(r), r.snapshot),
              requests := w.requests - {id}, answers := w.answers + [(r.seen, Built(r))])
      else w
  }

  /** Everything this build read is newer than every commit in `done`. */
  predicate NewerThan(e: Entry, done: set<nat>) { forall c :: c in done ==> c <= e.first }

  predicate RequestInv(w: World, r: Request) {
    && r.snapshot <= w.generation && r.seen <= w.completed
    && (r.snapshot == w.generation ==> r.seen == w.completed)
    && (r.span.Some? ==> r.span.value.0 <= r.span.value.1 <= w.version && forall c :: c in r.seen ==> c <= r.span.value.0)
  }

  ghost predicate Coherent(w: World) {
    && (forall c :: c in w.pending + w.completed ==> c <= w.version)
    && (forall k :: k in w.entries ==> NewerThan(w.entries[k], w.completed))
    && (forall id :: id in w.requests ==> RequestInv(w, w.requests[id]))
    && (forall i :: 0 <= i < |w.answers| ==> NewerThan(w.answers[i].1, w.answers[i].0))
  }

  /** A request that starts after an invalidation never gets a pipeline built from older data:
      neither from the cache nor by building it. */
  lemma StepKeepsCoherent(w: World, s: Step)
    requires Coherent(w)
    ensures Coherent(Apply(w, s))
  {}

  function Run(w: World, steps: seq<Step>): World
    decreases |steps|
  {
    if steps == [] then w else Run(Apply(w, steps[0]), steps[1..])
  }

  const EMPTY: World := World(0, {}, {}, 0, map[], map[], [])

  lemma {:induction false} CacheIsCoherent(w: World, steps: seq<Step>)
    requires Coherent(w)
    ensures Coherent(Run(w, steps))
    decreases |steps|
  {
    if steps != [] {
      StepKeepsCoherent(w, steps[0]);
      CacheIsCoherent(Apply(w, steps[0]), steps[1..]);
    }
  }

  /** The same, said of the answers: whatever the interleaving, an answer's every read came
      after the commit of every mutation whose invalidation had completed when it began. */
  lemma AnswersAreNeverOlder(steps: seq<Step>, i: nat, c: nat)
    requires i < |Run(EMPTY, steps).answers| && c in Run(EMPTY, steps).answers[i].0
    ensures c <= Run(EMPTY, steps).answers[i].1.first
  {
    CacheIsCoherent(EMPTY, steps);
  }

  lemma {:induction false} RunLast(w: World, steps: seq<Step>)
    requires steps != []
    ensures Run(w, steps) == Apply(Run(w, steps[..|steps| - 1]), steps[|steps| - 1])
    decreases |steps|
  {
    var n := |steps| - 1;
    if n > 0 {
      RunLast(Apply(w, steps[0]), steps[1..]);
      assert steps[1..][..n - 1] == steps[..n][1..];
    }
  }

  /** Step `i` of the run stored `e` under this key, and no invalidation has run since the
      request it was built for began. */
  ghost predicate BuiltAt(steps: seq<Step>, i: nat, key: Key, e: Entry) {
    i < |steps| && steps[i].Finish? &&
    var w := Run(EMPTY, steps[..i]);
    steps[i].id in w.requests &&
    var r := w.requests[steps[i].id];
    r.key == key && r.stamp.Some? && r.span.Some? && Built(r) == e && r.snapshot == w.generation == Run(EMPTY, steps).generation
  }

  /** What a lookup finds was built, as it is, for the very key and stamp it is asked for. */
  lemma {:induction false} FoundWasBuilt(steps: seq<Step>, key: Key, stamp: Stamp)
    requires Found(Run(EMPTY, steps).entries, key, stamp).Some?
    ensures var e := Found(Run(EMPTY, steps).entries, key, stamp).value;
      e.stamp == stamp && exists i: nat :: BuiltAt(steps, i, key, e)
    decreases |steps|
  {
    var n := |steps| - 1;
    RunLast(EMPTY, steps);
    var w, e := Run(EMPTY, steps[..n]), Found(Run(EMPTY, steps).entries, key, stamp).value;
    if Found(w.entries, key, stamp) == Some(e) {
      FoundWasBuilt(steps[..n], key, stamp);
      var i: nat :| BuiltAt(steps[..n], i, key, e);
      assert steps[..n][..i] == steps[..i];
      assert BuiltAt(steps, i, key, e);
    } else {
      assert BuiltAt(steps, n, key, e);
    }
  }

  /** The other way about: a request whose generation has not moved is found under its own key
      and stamp once it has finished, and no other key's answer changes. */
  lemma FinishedIsFound(w: World, id: int, k: Key, s: Stamp)
    requires id in w.requests && w.requests[id].stamp.Some? && w.requests[id].span.Some?
    ensures var r := w.requests[id]; var w' := Apply(w, Finish(id));
      Found(w'.entries, k, s) ==
        if r.snapshot != w.generation || k != r.key then Found(w.entries, k, s)
        else if s == r.stamp.value then Some(Built(r)) else None
  {}

  // ------------------------------------------------------------------ hits and the fingerprint

  /** An entry stamped from what the database held when it was stamped. */
  predicate Truthful(e: Entry, tables: seq<Tables>) {
    e.stampedAt < |tables| && e.stamp.freshness == Freshness(tables[e.stampedAt])
  }

  /** On a hit the tables are as they were when the entry was stamped. */
  lemma HitIsStamped(tables: seq<Tables>, clocks: seq<int>, e: Entry, now: nat)
    requires AllHistories(tables, clocks) && Truthful(e, tables) && e.stampedAt <= now < |tables|
    requires e.stamp.freshness == Freshness(tables[now])
    ensures tables[e.stampedAt] == tables[now]
  {
    FreshnessIsFaithful(tables, clocks, e.stampedAt, now);
  }

  /** So what a hit serves was built from today's tables, with or without an invalidation,
      exactly when the fingerprint never differed from the stamp's while the build read: which
      the build could tell before it stores, read by read. */
  lemma HitIsCurrent(tables: seq<Tables>, clocks: seq<int>, e: Entry, now: nat)
    requires AllHistories(tables, clocks) && Truthful(e, tables) && e.stampedAt <= now < |tables|
    requires e.stampedAt <= e.first <= e.last < |tables| && e.stamp.freshness == Freshness(tables[now])
    ensures forall v :: e.first <= v <= e.last ==> (tables[v] == tables[now] <==> Freshness(tables[v]) == e.stamp.freshness)
    ensures (forall v :: e.first <= v <= e.last ==> tables[v] == tables[now])
       <==> (forall v :: e.first <= v <= e.last ==> Freshness(tables[v]) == e.stamp.freshness)
  {
    HitIsStamped(tables, clocks, e, now);
    forall v | e.first <= v <= e.last && Freshness(tables[v]) == e.stamp.freshness ensures tables[v] == tables[now] {
      FreshnessIsFaithful(tables, clocks, e.stampedAt, v);
    }
  }

  const NONE: Tables := Tables(map[], map[], map[])
  const SKILL: Tables := Tables(map[1 := Row(5, 7)], map[], map[])
  const STAMP: Stamp := Stamp(0, Freshness(NONE))
  const STALE: Entry := Entry(STAMP, 0, 1, 1)

  /** The first request's stamp, the skill's commit, the first request's build and store. */
  lemma StoresStale()
    ensures Run(EMPTY, [Begin(1, 9), ReadStamp(1, STAMP), Commit, ReadPart(1), Finish(1)])
         == World(1, {1}, {}, 0, map[9 := STALE], map[], [({}, STALE)])
  {
    var r := Request(9, 0, {}, Some(STAMP), 0, None);
    var w1 := EMPTY.(requests := map[1 := Request(9, 0, {}, None, 0, None)]);
    var w2 := EMPTY.(requests := map[1 := r]);
    var w3 := w2.(version := 1, pending := {1});
    var w4 := w3.(requests := map[1 := r.(span := Some((1, 1)))]);
    assert Apply(EMPTY, Begin(1, 9)) == w1;
    assert Apply(w1, ReadStamp(1, STAMP)) == w2;
    assert Apply(w2, Commit) == w3;
    assert Apply(w3, ReadPart(1)) == w4;
    assert Apply(w4, Finish(1)) == World(1, {1}, {}, 0, map[9 := STALE], map[], [({}, STALE)]);
    FiveSteps(EMPTY, w1, w2, w3, w4, [Begin(1, 9), ReadStamp(1, STAMP), Commit, ReadPart(1), Finish(1)]);
  }

  lemma FiveSteps(w0: World, w1: World, w2: World, w3: World, w4: World, steps: seq<Step>)
    requires |steps| == 5 && Apply(w0, steps[0]) == w1 && Apply(w1, steps[1]) == w2 && Apply(w2, steps[2]) == w3 && Apply(w3, steps[3]) == w4
    ensures Run(w0, steps) == Apply(w4, steps[4])
  {
    assert Run(w4, steps[1..][1..][1..][1..]) == Apply(w4, steps[4]);
    assert Run(w3, steps[1..][1..][1..]) == Apply(w4, steps[4]);
    assert Run(w2, steps[1..][1..]) == Apply(w4, steps[4]);
    assert Run(w1, steps[1..]) == Apply(w4, steps[4]);
  }

  /** The fingerprint at the hit alone is not enough: a skill added between the stamp and
      the build, then deleted, leaves an entry whose fingerprint fits the tables again and
      whose pipeline still has the skill. Neither invalidation has run yet. */
  lemma HitCanBeStale()
    ensures AllHistories([NONE, SKILL, NONE], [0, 5, 5])
    ensures var w := Run(EMPTY, [Begin(1, 9), ReadStamp(1, STAMP), Commit, ReadPart(1), Finish(1)]);
      var w' := Apply(Apply(Apply(Apply(w, Commit), Begin(2, 9)), ReadStamp(2, STAMP)), TryCache(2));
      w'.version == 2 && |w'.answers| == 2 && w'.answers[1] == ({}, STALE) && STALE.first == 1
  {
    StaleHistory();
    StoresStale();
    SecondIsServed(World(1, {1}, {}, 0, map[9 := STALE], map[], [({}, STALE)]));
  }

  lemma StaleHistory()
    ensures AllHistories([NONE, SKILL, NONE], [0, 5, 5])
  {}

  lemma SecondIsServed(w: World)
    requires w.version == 1 && w.entries == map[9 := STALE] && w.requests == map[] && w.completed == {} && w.answers == [({}, STALE)]
    ensures var w' := Apply(Apply(Apply(Apply(w, Commit), Begin(2, 9)), ReadStamp(2, STAMP)), TryCache(2));
      w'.version == 2 && w'.answers == [({}, STALE), ({}, STALE)]
  {}
}
