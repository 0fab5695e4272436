/** The whole run that ends with a live generation without its vectors, from the empty system. */
module CollectionRaceRun {
  import opened Basics
  import opened Ingestion
  import opened Collections
  import opened CollectionInvariant
  import opened CollectionHistory
  import opened CollectionWhole
  import opened CollectionRestore
  import opened CollectionRace
  import opened CollectionReferences

  // ------------------------------------------------------------------ runs, piece by piece

  ghost predicate Reaches(w: World, w': World) {
    exists steps :: RunFits(TOOLS, w, steps) && Run(TOOLS, w, steps) == w'
  }

  lemma ReachesOn(w: World, w1: World, w2: World)
    requires Reaches(w, w1) && Reaches(w1, w2)
    ensures Reaches(w, w2)
  {
    var a :| RunFits(TOOLS, w, a) && Run(TOOLS, w, a) == w1;
    var b :| RunFits(TOOLS, w1, b) && Run(TOOLS, w1, b) == w2;
    RunsOn(TOOLS, w, a, b);
  }

  lemma One(w: World, s: Step, w': World)
    requires Fits(w, s) && Apply(TOOLS, w, s) == w'
    ensures Reaches(w, w')
  {
    RunOne(TOOLS, w, s);
  }

  /** One step more. */
  lemma Then(w0: World, w: World, s: Step, w': World)
    requires Reaches(w0, w) && Fits(w, s) && Apply(TOOLS, w, s) == w'
    ensures Reaches(w0, w')
  {
    One(w, s, w');
    ReachesOn(w0, w, w');
  }

  // ------------------------------------------------------------------ one upload and its worker

  function Wanted(id: nat, size: nat): Request {
    Request(0, id, id, FILES, false, None, 200, Some(VectorOnly), Some("m"), size, 10)
  }

  function Cut(size: nat): Config { Config(VectorOnly, Some("m"), size, 10) }

  function Uploaded(w: World, id: nat, size: nat): World {
    w.(kbs := w.kbs[0 := Cut(size)], jobs := w.jobs[id := Asked(id, size)], dirs := w.dirs[id := Dir(0, FILES)])
  }

  lemma OneFile()
    ensures |FILES| == 1
  {
    assert FILES.Keys == {FILE};
    assert |FILES| == |FILES.Keys|;
  }

  lemma Uploads(w: World, id: nat, size: nat)
    requires FreshIds(w, id, id)
    ensures Reaches(w, Uploaded(w, id, size))
  {
    OneFile();
    var r := Wanted(id, size);
    assert map[] + FILES == FILES;
    assert Upload(TOOLS, w, r) == Accepted(Uploaded(w, id, size));
    One(w, DoUpload(r), Uploaded(w, id, size));
  }

  /** The job's worker, up to the end of its reads. */
  lemma Takes(w: World, id: nat)
    ensures Reaches(w, Ready(w, id))
  {
    var w1 := Dispatch(w, id);
    var w2 := Start(w1, id);
    var w3 := LoadCandidates(w2, id);
    var w4 := LoadNext(w3, id);
    One(w, DoDispatch(id), w1);
    Then(w, w1, DoStart(id), w2);
    Then(w, w2, DoLoadCandidates(id), w3);
    Then(w, w3, DoLoadNext(id), w4);
    Then(w, w4, DoLoadNext(id), LoadNext(w4, id));
    assert ReadSome(w3, id, 2) == ReadSome(w4, id, 1) == LoadNext(w4, id);
  }

  function ShapeFor(size: nat): Shape { Shape(VectorOnly, Some("m"), size, 10) }

  /** The upload's worker with what it was offered, all read. */
  function Working(w: World, id: nat, size: nat, reuse: Reuse): World {
    Uploaded(w, id, size).(jobs := w.jobs[id := Made(id, size, Running, 0)], workers := map[id := Sized(id, size, Loading([], reuse))])
  }

  lemma BegunFrom(w: World, id: nat, size: nat)
    requires w.rev == 2 && w.workers == map[] && id !in w.jobs
    ensures Waits(Uploaded(w, id, size), id)
    ensures Begun(Uploaded(w, id, size), id)
      == Uploaded(w, id, size).(jobs := w.jobs[id := Made(id, size, Running, 0)], workers := map[id := Sized(id, size, Started)])
  {
    var u := Uploaded(w, id, size);
    Again(w.jobs, id, Asked(id, size), Made(id, size, Running, 0));
    assert JobShape(u.jobs[id], u.kbs[0]) == ShapeFor(size);
  }

  lemma Again(jobs: map<JobId, Job>, id: JobId, a: Job, b: Job)
    ensures jobs[id := a][id := b] == jobs[id := b]
  {}

  lemma OfferedBefore(w: World, b: World, id: nat, shape: Shape, job: Job)
    requires id !in w.jobs && b.jobs == w.jobs[id := job] && job.status != Completed && b.docs == w.docs && b.rev == w.rev
    ensures Offered(b, 0, shape) == Offered(w, 0, shape)
  {
    assert CompletedIds(b.jobs, 0) == CompletedIds(w.jobs, 0);
  }

  lemma Gets(w: World, id: nat, size: nat, reuse: Reuse)
    requires w.rev == 2 && w.workers == map[] && FreshIds(w, id, id) && Offered(w, 0, ShapeFor(size)) == reuse
    ensures Reaches(w, Working(w, id, size, reuse))
  {
    var u := Uploaded(w, id, size);
    Uploads(w, id, size);
    Takes(u, id);
    BegunFrom(w, id, size);
    ReadyHolds(u, id);
    OfferedBefore(w, Begun(u, id), id, ShapeFor(size), Made(id, size, Running, 0));
    Rephased(id, size, reuse);
    ReachesOn(w, u, Ready(u, id));
  }

  lemma Rephased(id: nat, size: nat, reuse: Reuse)
    ensures var m: map<JobId, Worker> := map[id := Sized(id, size, Started)];
      m[id := m[id].(phase := Loading([], reuse))] == map[id := Sized(id, size, Loading([], reuse))]
  {}

  /** And its end, with the document as it should be. */
  function Served(w: World, id: nat, size: nat): World {
    Uploaded(w, id, size).(jobs := w.jobs[id := Made(id, size, Completed, 1)], docs := w.docs[id := RowSet(0, map[FILE := SERVED])], workers := map[])
  }

  lemma CutsAfresh(shape: Shape)
    requires shape.(size := 100) == SHAPE
    ensures Rows(TOOLS, 2, shape, map[], FILES) == map[FILE := SERVED]
  {
    CutsTo(shape);
    assert RowFor(TOOLS, 2, shape, map[], FILE, BYTES) == SERVED;
  }

  lemma Serves(w: World, id: nat, size: nat)
    requires w.rev == 2 && w.workers == map[] && FreshIds(w, id, id) && Offered(w, 0, ShapeFor(size)) == map[]
    ensures Reaches(w, Served(w, id, size))
  {
    Gets(w, id, size, map[]);
    var r := Working(w, id, size, map[]);
    CutsAfresh(ShapeFor(size));
    OneDocument(SERVED);
    FinishesWith(r, id, size, map[], map[FILE := SERVED]);
    Again(w.jobs, id, Made(id, size, Running, 0), Made(id, size, Completed, 1));
    assert r.workers - {id} == map[];
    Then(w, r, DoFinish(id, true), Served(w, id, size));
  }

  // ------------------------------------------------------------------ the four uploads

  const AFTER10: World := Served(EMPTY, 10, 100)
  const AFTER11: World := Served(AFTER10, 11, 200)
  const CITED: World := AFTER11.(refs := {(1, 10)})
  const READ12: World := Working(CITED, 12, 100, WHOLE)

  lemma NothingOffered()
    ensures Offered(EMPTY, 0, SHAPE) == map[]
  {
    assert CompletedIds(EMPTY.jobs, 0) == {};
  }

  lemma TenNotOffered()
    ensures Offered(AFTER10, 0, OTHER) == map[]
  {
    assert CompletedIds(AFTER10.jobs, 0) == {10};
    NewestOf({10}, 10);
    var rest: set<int> := {10} - {10};
    assert rest == {};
    assert Contribution(AFTER10, 10, OTHER) == map[];
  }

  lemma CitedWindow()
    ensures Live(CITED.jobs, 0) == Some(11) && Previous(CITED.jobs, 0) == Some(10)
  {
    assert CompletedIds(CITED.jobs, 0) == {10, 11};
    NewestOf({10, 11}, 11);
    assert {10, 11} - {11} == {10};
    NewestOf({10}, 10);
  }

  lemma ElevenContributes()
    ensures Contribution(CITED, 11, SHAPE) == map[]
  {}

  lemma KeepsTen()
    ensures 10 in CITED.jobs && CITED.jobs[10] == Made(10, 100, Completed, 1) && CITED.rev == 2
    ensures 10 in CITED.docs && CITED.docs[10] == RowSet(0, map[FILE := SERVED])
  {}

  lemma TenContributes()
    ensures Contribution(CITED, 10, SHAPE) == WHOLE
  {
    KeepsTen();
    KeyedOne(FILE, DIGEST, SERVED.chunks);
    Contributes(CITED, 10, SHAPE, map[FILE := SERVED], WHOLE);
  }

  lemma Contributes(w: World, j: nat, shape: Shape, rows: map<Name, Doc>, reuse: Reuse)
    requires j in w.jobs && Carryable(w.jobs[j], shape, w.rev) && j in w.docs && w.docs[j].rows == rows && Keyed(rows) == reuse
    ensures Contribution(w, j, shape) == reuse
  {}

  lemma TenOffered()
    ensures Offered(CITED, 0, SHAPE) == WHOLE
  {
    CitedWindow();
    ElevenContributes();
    TenContributes();
  }

  lemma Starts13()
    ensures Start(Dispatch(Uploaded(READ12, 13, 100), 13), 13) == BEFORE
  {
    var u := Uploaded(READ12, 13, 100);
    BeginsSo(u, 13);
    assert Begun(u, 13).jobs == BEFORE.jobs;
    assert Begun(u, 13).workers == BEFORE.workers;
    assert Begun(u, 13).dirs == BEFORE.dirs;
    assert Begun(u, 13).docs == BEFORE.docs;
    assert Begun(u, 13).kbs == BEFORE.kbs;
  }

  lemma Fresh(w: World, id: nat, ids: set<nat>)
    requires w.jobs.Keys == ids && w.dirs.Keys == ids && w.prunes == map[] && (forall j :: j in ids ==> j < id && w.jobs[j].version == j)
    ensures FreshIds(w, id, id)
  {}

  lemma ServesBoth()
    ensures Reaches(EMPTY, AFTER11)
  {
    NothingOffered();
    Serves(EMPTY, 10, 100);
    TenNotOffered();
    Serves(AFTER10, 11, 200);
    ReachesOn(EMPTY, AFTER10, AFTER11);
  }

  lemma Cites()
    ensures Reaches(AFTER11, CITED)
  {
    var w1 := AFTER11.(checks := {(1, 10)});
    One(AFTER11, DoCheck(1, 10), w1);
    Then(AFTER11, w1, DoInsert(1, 10), CITED);
  }

  lemma Reads12()
    ensures Reaches(CITED, READ12)
  {
    TenOffered();
    Fresh(CITED, 12, {10, 11});
    Gets(CITED, 12, 100, WHOLE);
  }

  lemma Begins13()
    ensures Reaches(READ12, BEFORE)
  {
    var u := Uploaded(READ12, 13, 100);
    Fresh(READ12, 13, {10, 11, 12});
    Uploads(READ12, 13, 100);
    Then(READ12, u, DoDispatch(13), Dispatch(u, 13));
    Starts13();
    Then(READ12, Dispatch(u, 13), DoStart(13), BEFORE);
  }

  /** From nothing to two completed uploads and two being processed. */
  lemma BeforeIsReached()
    ensures Reaches(EMPTY, BEFORE)
  {
    ServesBoth();
    Cites();
    Reads12();
    Begins13();
    ReachesOn(EMPTY, AFTER11, CITED);
    ReachesOn(EMPTY, CITED, READ12);
    ReachesOn(EMPTY, READ12, BEFORE);
  }

  // ------------------------------------------------------------------ the race itself

  lemma AsksNext(w: World, w': World)
    requires Reaches(EMPTY, w) && LoadCandidates(w, 13) == w'
    ensures Reaches(EMPTY, w')
  {
    Then(EMPTY, w, DoLoadCandidates(13), w');
  }

  lemma FinishesNext(w: World, id: nat, w': World)
    requires Reaches(EMPTY, w) && Finish(TOOLS, w, id, true) == w'
    ensures Reaches(EMPTY, w')
  {
    Then(EMPTY, w, DoFinish(id, true), w');
  }

  lemma PrunesNext(w: World, w': World)
    requires Reaches(EMPTY, w) && PruneOld(w, 0) == w' && 5 !in w.prunes
    ensures Reaches(EMPTY, w')
  {
    var w2 := LookUp(ListOld(w, 5, 0), 5);
    UndisturbedPrune(TOOLS, w, 5, 0);
    Looks(w);
    ReachesOn(EMPTY, w, w2);
    Then(EMPTY, w2, DoCommitPrune(5), w');
  }

  lemma ReadsNext(w: World, w': World)
    requires Reaches(EMPTY, w) && LoadNext(w, 13) == w'
    ensures Reaches(EMPTY, w')
  {
    Then(EMPTY, w, DoLoadNext(13), w');
  }

  lemma OlderIsDone()
    ensures Reaches(EMPTY, AFTER2)
  {
    BeforeIsReached();
    CandidatesRead();
    AsksNext(BEFORE, AFTER1);
    OlderFinishes();
    FinishesNext(AFTER1, 12, AFTER2);
  }

  lemma OlderHasPruned()
    ensures Reaches(EMPTY, AFTER3)
  {
    OlderIsDone();
    OlderPrunes();
    PrunesNext(AFTER2, AFTER3);
  }

  lemma NewerHasRead()
    ensures Reaches(EMPTY, AFTER5)
  {
    OlderHasPruned();
    ReadsFirst();
    ReadsNext(AFTER3, Reader(AFTER3, Loading([SECOND], map[])));
    ReadsSecond();
    ReadsNext(Reader(AFTER3, Loading([SECOND], map[])), AFTER5);
  }

  /** A run from the empty system after which the live generation has lost its vector: the older
      job completes and prunes between the newer one's two queries. */
  lemma PruneCanEmptyLive()
    ensures CollisionFree(TOOLS)
    ensures exists steps :: RunFits(TOOLS, EMPTY, steps) && LiveIsEmptied(Run(TOOLS, EMPTY, steps))
  {
    NewerHasRead();
    NewerFinishes();
    var w := Finish(TOOLS, AFTER5, 13, true);
    FinishesNext(AFTER5, 13, w);
    var steps :| RunFits(TOOLS, EMPTY, steps) && Run(TOOLS, EMPTY, steps) == w;
    assert LiveIsEmptied(Run(TOOLS, EMPTY, steps));
  }

  // ------------------------------------------------------------------ the lost text

  const AFTER12: World := Served(AFTER11, 12, 300)

  lemma NothingCarried()
    ensures Offered(AFTER11, 0, ShapeFor(300)) == map[]
  {
    assert CITED.jobs == AFTER11.jobs;
    CitedWindow();
    assert Contribution(AFTER11, 10, ShapeFor(300)) == map[];
    assert Contribution(AFTER11, 11, ShapeFor(300)) == map[];
  }

  lemma ServesThree()
    ensures Reaches(EMPTY, AFTER12)
  {
    ServesBoth();
    NothingCarried();
    Fresh(AFTER11, 12, {10, 11});
    Serves(AFTER11, 12, 300);
    ReachesOn(EMPTY, AFTER11, AFTER12);
  }

  lemma TenHasGoneOld()
    ensures 10 in Old(AFTER12.jobs, 0)
  {
    assert {10, 11, 12} <= CompletedIds(AFTER12.jobs, 0);
    WindowIsTopTwo(AFTER12.jobs, 0, 10);
  }

  lemma LateReference(w: World)
    ensures Reaches(w, InsertReference(TOOLS, LookUp(ListOld(CheckReference(w, 1, 10), 5, 0), 5), 1, 10))
  {
    Looks(CheckReference(w, 1, 10));
    One(w, DoCheck(1, 10), CheckReference(w, 1, 10));
    ReachesOn(w, CheckReference(w, 1, 10), LookUp(ListOld(CheckReference(w, 1, 10), 5, 0), 5));
    InsertsNext(w, LookUp(ListOld(CheckReference(w, 1, 10), 5, 0), 5));
  }

  lemma Looks(w: World)
    ensures Reaches(w, LookUp(ListOld(w, 5, 0), 5))
  {
    One(w, DoListOld(5, 0), ListOld(w, 5, 0));
    Then(w, ListOld(w, 5, 0), DoLookUp(5), LookUp(ListOld(w, 5, 0), 5));
  }

  lemma InsertsNext(w0: World, w: World)
    requires Reaches(w0, w)
    ensures Reaches(w0, InsertReference(TOOLS, w, 1, 10))
  {
    Then(w0, w, DoInsert(1, 10), InsertReference(TOOLS, w, 1, 10));
  }

  /** A run from the empty system in which a prune looks for references, a run's thread records
      one to a generation it has listed, and the prune deletes the generation all the same. */
  lemma PruneCanLoseText()
    ensures exists w :: Reaches(EMPTY, w) && Cited(w, 1, 10) && Reaches(EMPTY, CommitPrune(TOOLS, w, 5)) && TextIsLost(CommitPrune(TOOLS, w, 5), 1, 10)
  {
    ServesThree();
    TenHasGoneOld();
    LosesFrom(AFTER12);
  }

  lemma LosesFrom(w0: World)
    requires Reaches(EMPTY, w0) && 10 in Old(w0.jobs, 0) && w0.refs == {} && w0.prunes == map[]
    ensures exists w :: Reaches(EMPTY, w) && Cited(w, 1, 10) && Reaches(EMPTY, CommitPrune(TOOLS, w, 5)) && TextIsLost(CommitPrune(TOOLS, w, 5), 1, 10)
  {
    var a :| RunFits(TOOLS, EMPTY, a) && Run(TOOLS, EMPTY, a) == w0;
    RunKeeps(TOOLS, EMPTY, a);
    LateReferenceIsLost(TOOLS, w0, 1, 10, 5, 0);
    var w := InsertReference(TOOLS, LookUp(ListOld(CheckReference(w0, 1, 10), 5, 0), 5), 1, 10);
    LateReference(w0);
    ReachesOn(EMPTY, w0, w);
    Then(EMPTY, w, DoCommitPrune(5), CommitPrune(TOOLS, w, 5));
  }
}
