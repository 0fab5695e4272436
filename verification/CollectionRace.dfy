/** The one interleaving in which a live generation can end up without its vectors: an older
    job completes and prunes between a newer job's candidate query and its chunk query. */
module CollectionRace {
  import opened Basics
  import opened Ingestion
  import opened Collections
  import opened CollectionInvariant
  import opened CollectionSteps
  import opened CollectionHistory
  import opened CollectionWhole
  import opened CollectionRestore

  const FILE: Name := Name("a.txt")
  const BYTES: Data := Data("text")
  const PIECE: Piece := Piece("text", None, None)
  const DIGEST: Hash := Hash("text")

  /** A SQLite file, which enforces no keys. */
  const TOOLS: Tools := Tools(
    (rev, name, data, size, overlap) => Some([PIECE]),
    (model, text) => [],
    (d: Data) => Hash(d.bytes),
    (h: Hash) => Data(h.digest),
    name => name,
    false)

  const CONFIG: Config := Config(VectorOnly, Some("m"), 100, 10)
  const FILES: map<Name, Data> := map[FILE := BYTES]
  const SERVED: Doc := Chunked(DIGEST, [Chunk(PIECE, Some([]), Some("m"))])
  const EMPTIED: Doc := Chunked(DIGEST, [Chunk(PIECE, None, Some("m"))])

  function Made(v: Version, size: int, status: Status, succeeded: nat): Job {
    Job(0, v, VectorOnly, Some("m"), Some(size), Some(10), Some(2), status, 1, succeeded, 0)
  }

  function Asked(v: Version, size: int): Job {
    Job(0, v, VectorOnly, Some("m"), Some(size), Some(10), None, Queued, 1, 0, 0)
  }

  function Busy(v: Version, phase: Phase): Worker { Sized(v, 100, phase) }

  function Sized(v: Version, size: int, phase: Phase): Worker {
    Worker(0, v, Shape(VectorOnly, Some("m"), size, 10), phase)
  }

  /** Two completed uploads with different chunk sizes, the older one cited by a run, and two
      later uploads still being processed, the first of which has read all it has to. */
  const BEFORE: World := World(2, map[0 := CONFIG],
    map[10 := Made(10, 100, Completed, 1), 11 := Made(11, 200, Completed, 1), 12 := Made(12, 100, Running, 0), 13 := Made(13, 100, Running, 0)],
    map[10 := RowSet(0, map[FILE := SERVED]), 11 := RowSet(0, map[FILE := SERVED])],
    map[10 := Dir(0, FILES), 11 := Dir(0, FILES), 12 := Dir(0, FILES), 13 := Dir(0, FILES)],
    {(1, 10)},
    map[12 := Busy(12, Loading([], WHOLE)), 13 := Busy(13, Started)],
    map[], {})

  const WHOLE: Reuse := map[(FILE, DIGEST) := SERVED.chunks]

  const SHAPE: Shape := Shape(VectorOnly, Some("m"), 100, 10)
  const OTHER: Shape := Shape(VectorOnly, Some("m"), 200, 10)

  lemma NewestOf(s: set<int>, m: int)
    requires m in s && forall x :: x in s ==> x <= m
    ensures Newest(s) == Some(m)
  {}

  lemma CutsTo(shape: Shape)
    requires shape.(size := 100) == SHAPE
    ensures FreshDoc(TOOLS, 2, shape, FILE, BYTES) == SERVED
  {}

  // ------------------------------------------------------------------ the six steps

  function Reader(w: World, phase: Phase): World { w.(workers := map[13 := Busy(13, phase)]) }

  const FIRST: Candidate := Candidate(11, Made(11, 200, Completed, 1))
  const SECOND: Candidate := Candidate(10, Made(10, 100, Completed, 1))
  const NULLED: Reuse := map[(FILE, DIGEST) := EMPTIED.chunks]

  const AFTER1: World := BEFORE.(workers := BEFORE.workers[13 := Busy(13, Loading([FIRST, SECOND], map[]))])
  const AFTER2: World := Reader(AFTER1.(jobs := AFTER1.jobs[12 := Made(12, 100, Completed, 1)], docs := AFTER1.docs[12 := RowSet(0, map[FILE := SERVED])]),
                                Loading([FIRST, SECOND], map[]))
  const AFTER3: World := AFTER2.(dirs := AFTER2.dirs - {10}, docs := AFTER2.docs[10 := RowSet(0, map[FILE := EMPTIED])])
  const AFTER5: World := Reader(AFTER3, Loading([], NULLED))

  lemma CandidatesRead()
    ensures LoadCandidates(BEFORE, 13) == AFTER1
  {
    var others := CompletedIds(BEFORE.jobs, 0) - {13};
    assert others == {10, 11};
    NewestOf(others, 11);
    assert others - {11} == {10};
    NewestOf(others - {11}, 10);
    assert Candidates(BEFORE, 13, 0) == [FIRST, SECOND];
  }

  /** A finishing worker whose rows are known. */
  lemma FinishesWith(w: World, id: nat, size: int, reuse: Reuse, rows: map<Name, Doc>)
    requires id in w.workers && id in w.jobs && w.workers[id] == Sized(id, size, Loading([], reuse)) && w.jobs[id] == Made(id, size, Running, 0)
    requires id in w.dirs && w.dirs[id].files == FILES && Readable(rows) == {FILE} && Unreadable(rows) == {}
    requires rows == Rows(TOOLS, w.rev, Shape(VectorOnly, Some("m"), size, 10), reuse, FILES)
    ensures Finish(TOOLS, w, id, true)
      == w.(workers := w.workers - {id}, jobs := w.jobs[id := Made(id, size, Completed, 1)], docs := w.docs[id := RowSet(0, rows)])
  {}

  lemma OneDocument(d: Doc)
    requires d.Chunked?
    ensures Readable(map[FILE := d]) == {FILE} && Unreadable(map[FILE := d]) == {}
  {}

  lemma CarriesWhole()
    ensures Rows(TOOLS, 2, SHAPE, WHOLE, FILES) == map[FILE := SERVED]
  {
    assert RowFor(TOOLS, 2, SHAPE, WHOLE, FILE, BYTES) == SERVED;
  }

  lemma OlderFinishes()
    ensures Finish(TOOLS, AFTER1, 12, true) == AFTER2
  {
    CarriesWhole();
    OneDocument(SERVED);
    FinishesWith(AFTER1, 12, 100, WHOLE, map[FILE := SERVED]);
    assert AFTER1.workers - {12} == AFTER2.workers;
  }

  lemma TenIsOld()
    ensures Old(AFTER2.jobs, 0) == {10}
  {
    assert CompletedIds(AFTER2.jobs, 0) == {10, 11, 12};
    NewestOf({10, 11, 12}, 12);
    assert {10, 11, 12} - {12} == {10, 11};
    NewestOf({10, 11}, 11);
    assert Window(AFTER2.jobs, 0) == {12, 11};
  }

  lemma EmptiedRows()
    ensures NullRows(RowSet(0, map[FILE := SERVED])) == RowSet(0, map[FILE := EMPTIED])
  {
    assert NullRow(SERVED).chunks == EMPTIED.chunks;
  }

  lemma OlderPrunes()
    ensures PruneOld(AFTER2, 0) == AFTER3
  {
    TenIsOld();
    EmptiedRows();
    assert (1, 10) in AFTER2.refs;
    assert 10 in Referenced(AFTER2.refs);
    PrunesTen(AFTER2);
  }

  lemma PrunesTen(w: World)
    requires Old(w.jobs, 0) == {10} && 10 in Referenced(w.refs) && 10 in w.jobs && w.jobs[10].version == 10
    requires 10 in w.docs
    ensures PruneOld(w, 0) == w.(dirs := w.dirs - {10}, docs := w.docs[10 := NullRows(w.docs[10])])
  {}

  lemma ReadsFirst()
    ensures LoadNext(AFTER3, 13) == Reader(AFTER3, Loading([SECOND], map[]))
  {
    ReadsNothing(AFTER3, [FIRST, SECOND]);
  }

  lemma ReadsNothing(w: World, todo: seq<Candidate>)
    requires w.workers == map[13 := Busy(13, Loading(todo, map[]))] && |todo| == 2 && !Carryable(todo[0].job, SHAPE, w.rev)
    ensures LoadNext(w, 13) == Reader(w, Loading([todo[1]], map[]))
  {
    KeyedNone();
    var none: Reuse := map[];
    assert none + none == none;
    var k := w.workers[13];
    assert k == Busy(13, Loading(todo, map[])) && k.phase.todo[1..] == [todo[1]];
    var k' := k.(phase := Loading([todo[1]], map[]));
    Replaced(w.workers, k, k');
  }

  lemma Replaced(workers: map<JobId, Worker>, a: Worker, b: Worker)
    requires workers == map[13 := a]
    ensures workers[13 := b] == map[13 := b]
  {}

  lemma KeyedOne(name: Name, hash: Hash, chunks: seq<Chunk>)
    requires chunks != []
    ensures Keyed(map[name := Chunked(hash, chunks)]) == map[(name, hash) := chunks]
  {
    var rows := map[name := Chunked(hash, chunks)];
    assert name in rows && rows[name].Chunked? && rows[name].hash == hash;
    assert (name, rows[name].hash) in Keyed(rows);
  }

  lemma KeyedEmptied()
    ensures Keyed(map[FILE := EMPTIED]) == NULLED && NULLED + map[] == NULLED
  {
    KeyedOne(FILE, DIGEST, EMPTIED.chunks);
  }

  lemma ReadsSecond()
    ensures LoadNext(Reader(AFTER3, Loading([SECOND], map[])), 13) == AFTER5
  {
    KeyedEmptied();
    ReadsOne(Reader(AFTER3, Loading([SECOND], map[])), SECOND, map[FILE := EMPTIED], NULLED);
  }

  lemma ReadsOne(w: World, c: Candidate, rows: map<Name, Doc>, reuse: Reuse)
    requires w.workers == map[13 := Busy(13, Loading([c], map[]))] && Carryable(c.job, SHAPE, w.rev)
    requires c.id in w.docs && w.docs[c.id].rows == rows && Keyed(rows) + map[] == reuse
    ensures LoadNext(w, 13) == Reader(w, Loading([], reuse))
  {
    var k := w.workers[13];
    assert k == Busy(13, Loading([c], map[])) && k.phase.todo[1..] == [];
    Replaced(w.workers, k, k.(phase := Loading([], reuse)));
  }

  lemma CarriesEmptied()
    ensures Rows(TOOLS, 2, SHAPE, NULLED, FILES) == map[FILE := EMPTIED]
  {}

  /** Vectors are asked for, and the live document's one chunk has none. */
  predicate LiveIsEmptied(w: World) {
    Live(w.jobs, 0) == Some(13) && 13 in w.jobs && Embeds(w.jobs[13].kbType) && 13 in w.docs && w.docs[13] == RowSet(0, map[FILE := EMPTIED])
  }

  lemma NewerFinishes()
    ensures LiveIsEmptied(Finish(TOOLS, AFTER5, 13, true))
  {
    CarriesEmptied();
    OneDocument(EMPTIED);
    FinishesWith(AFTER5, 13, 100, NULLED, map[FILE := EMPTIED]);
    var jobs := AFTER5.jobs[13 := Made(13, 100, Completed, 1)];
    assert 13 in CompletedIds(jobs, 0);
    NewestOf(CompletedIds(jobs, 0), 13);
  }
}
