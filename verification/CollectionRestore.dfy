/** Restores and removals: what they cost, and what they give back. */
module CollectionRestore {
  import opened Basics
  import opened Ingestion
  import opened Collections
  import opened CollectionInvariant
  import opened CollectionSteps
  import opened CollectionHistory
  import opened CollectionWhole

  // ------------------------------------------------------------------ one undisturbed worker

  /** The worker reading `n` candidates, one after another. */
  function ReadSome(w: World, id: JobId, n: nat): World
    decreases n
  {
    if n == 0 then w else ReadSome(LoadNext(w, id), id, n - 1)
  }

  /** A queued job taken by its worker up to the point where its reuse table is read. */
  function Ready(w: World, id: JobId): World {
    ReadSome(LoadCandidates(Start(Dispatch(w, id), id), id), id, 2)
  }

  function Worked(t: Tools, w: World, id: JobId, embedOk: bool): World {
    Finish(t, Ready(w, id), id, embedOk)
  }

  function Contribution(w: World, j: JobId, shape: Shape): Reuse
    requires j in w.jobs
  {
    if Carryable(w.jobs[j], shape, w.rev) && j in w.docs then Keyed(w.docs[j].rows) else map[]
  }

  /** What the two newest generations hand a job that nothing disturbs. */
  function Offered(w: World, kb: KbId, shape: Shape): Reuse {
    var live, previous := Live(w.jobs, kb), Previous(w.jobs, kb);
    (if previous.Some? then Contribution(w, previous.value, shape) else map[])
    + (if live.Some? then Contribution(w, live.value, shape) else map[])
  }

  predicate Waits(w: World, id: JobId) {
    id in w.jobs && w.jobs[id].status == Queued && id !in w.workers && w.jobs[id].kb in w.kbs
  }

  function Begun(w: World, id: JobId): World
    requires Waits(w, id)
  {
    var shape := JobShape(w.jobs[id], w.kbs[w.jobs[id].kb]);
    w.(jobs := w.jobs[id := w.jobs[id].(status := Running, kbType := shape.kbType, model := shape.model,
                                        size := Some(shape.size), overlap := Some(shape.overlap), parserRev := Some(w.rev))],
       workers := w.workers[id := Worker(w.jobs[id].kb, w.jobs[id].version, shape, Started)])
  }

  lemma BeginsSo(w: World, id: JobId)
    requires Waits(w, id)
    ensures Start(Dispatch(w, id), id) == Begun(w, id)
  {}

  lemma BegunWindows(w: World, id: JobId, kb: KbId)
    requires Waits(w, id)
    ensures CompletedIds(Begun(w, id).jobs, kb) == CompletedIds(w.jobs, kb)
  {}

  function Holding(w: World, id: JobId, todo: seq<Candidate>, reuse: Reuse): World
    requires id in w.workers
  {
    w.(workers := w.workers[id := w.workers[id].(phase := Loading(todo, reuse))])
  }

  lemma HoldsNext(w: World, id: JobId, todo: seq<Candidate>, reuse: Reuse, shape: Shape)
    requires id in w.workers && w.workers[id].shape == shape
    requires todo != [] ==> todo[0].id in w.jobs && todo[0].job == w.jobs[todo[0].id]
    ensures LoadNext(Holding(w, id, todo, reuse), id)
      == (if todo == [] then Holding(w, id, [], reuse)
          else Holding(w, id, todo[1..], Contribution(w, todo[0].id, shape) + reuse))
  {
    if todo != [] { HoldsOne(w, id, todo, reuse, shape); }
  }

  lemma HoldsOne(w: World, id: JobId, todo: seq<Candidate>, reuse: Reuse, shape: Shape)
    requires id in w.workers && w.workers[id].shape == shape && todo != [] && todo[0].id in w.jobs && todo[0].job == w.jobs[todo[0].id]
    ensures LoadNext(Holding(w, id, todo, reuse), id) == Holding(w, id, todo[1..], Contribution(w, todo[0].id, shape) + reuse)
  {
    KeyedNone();
    var w1 := Holding(w, id, todo, reuse);
    var a := w1.workers[id];
    var b := a.(phase := Loading(todo[1..], Contribution(w, todo[0].id, shape) + reuse));
    Overwrites(w.workers, id, a, b);
  }

  lemma Overwrites(workers: map<JobId, Worker>, id: JobId, a: Worker, b: Worker)
    ensures workers[id := a][id := b] == workers[id := b]
  {}

  /** The reuse table after reading `cs`, the earliest read winning. */
  function Merged(w: World, cs: seq<Candidate>, reuse: Reuse, shape: Shape): Reuse
    requires forall c :: c in cs ==> c.id in w.jobs
  {
    if cs == [] then reuse else Merged(w, cs[1..], Contribution(w, cs[0].id, shape) + reuse, shape)
  }

  lemma {:induction false} HoldsAll(w: World, id: JobId, cs: seq<Candidate>, reuse: Reuse, shape: Shape, n: nat)
    requires id in w.workers && w.workers[id].shape == shape && |cs| <= n
    requires forall c :: c in cs ==> c.id in w.jobs && c.job == w.jobs[c.id]
    ensures ReadSome(Holding(w, id, cs, reuse), id, n) == Holding(w, id, [], Merged(w, cs, reuse, shape))
    decreases n
  {
    if n > 0 {
      HoldsNext(w, id, cs, reuse, shape);
      if cs == [] {
        ReadsOne(Holding(w, id, cs, reuse), Holding(w, id, [], reuse), id, n);
        HoldsAll(w, id, [], reuse, shape, n - 1);
      } else {
        HoldsRest(w, cs, reuse, shape);
        var more := Contribution(w, cs[0].id, shape) + reuse;
        ReadsOne(Holding(w, id, cs, reuse), Holding(w, id, cs[1..], more), id, n);
        HoldsAll(w, id, cs[1..], more, shape, n - 1);
      }
    }
  }

  lemma ReadsOne(w: World, w': World, id: JobId, n: nat)
    requires n > 0 && LoadNext(w, id) == w'
    ensures ReadSome(w, id, n) == ReadSome(w', id, n - 1)
  {}

  lemma HoldsRest(w: World, cs: seq<Candidate>, reuse: Reuse, shape: Shape)
    requires cs != [] && forall c :: c in cs ==> c.id in w.jobs && c.job == w.jobs[c.id]
    ensures forall c :: c in cs[1..] ==> c.id in w.jobs && c.job == w.jobs[c.id]
    ensures Merged(w, cs, reuse, shape) == Merged(w, cs[1..], Contribution(w, cs[0].id, shape) + reuse, shape)
  {}

  /** The candidates read by an undisturbed worker are exactly the window. */
  lemma ReadyHolds(w: World, id: JobId)
    requires Waits(w, id)
    ensures var k, b := w.jobs[id].kb, Begun(w, id);
      Ready(w, id) == Holding(b, id, [], Offered(b, k, b.workers[id].shape))
  {
    BeginsSo(w, id);
    BegunWindows(w, id, w.jobs[id].kb);
    LoadsWindow(Begun(w, id), id, w.jobs[id].kb);
  }

  lemma LoadsWindow(b: World, id: JobId, kb: KbId)
    requires id in b.workers && b.workers[id].phase == Started && b.workers[id].kb == kb && id !in CompletedIds(b.jobs, kb)
    ensures ReadSome(LoadCandidates(b, id), id, 2) == Holding(b, id, [], Offered(b, kb, b.workers[id].shape))
  {
    assert CompletedIds(b.jobs, kb) - {id} == CompletedIds(b.jobs, kb);
    var cs, shape := Candidates(b, id, kb), b.workers[id].shape;
    assert LoadCandidates(b, id) == Holding(b, id, cs, map[]);
    HoldsAll(b, id, cs, map[], shape, 2);
    MergedIsOffered(b, cs, shape);
  }

  lemma MergedIsOffered(w: World, cs: seq<Candidate>, shape: Shape)
    requires |cs| <= 2 && forall c :: c in cs ==> c.id in w.jobs
    ensures Merged(w, cs, map[], shape) == (if |cs| > 1 then Contribution(w, cs[1].id, shape) else map[])
                                           + (if |cs| > 0 then Contribution(w, cs[0].id, shape) else map[])
  {
    if |cs| == 2 {
      var first := Contribution(w, cs[0].id, shape) + map[];
      assert cs[1..][1..] == [];
      assert Merged(w, cs[1..], first, shape) == Contribution(w, cs[1].id, shape) + first;
    } else if |cs| == 1 {
      assert cs[1..] == [];
    }
  }

  // ------------------------------------------------------------------ cost

  /** When every readable document of the staged set has a sound copy on offer, the embedding
      call has nothing to embed. */
  lemma NothingToEmbed(t: Tools, rev: int, shape: Shape, reuse: Reuse, rows: map<Name, Doc>, files: map<Name, Data>)
    requires CollisionFree(t) && RowsSound(t, rev, shape, rows) && ReuseSound(t, rev, shape, reuse)
    requires forall n :: n in files ==> n in rows && rows[n].hash == t.hash(files[n])
    requires Keyed(rows).Keys <= reuse.Keys
    ensures Embedded(t, rev, shape, reuse, files) == {}
  {}

  predicate SameFiles(files: map<Name, Data>, all: map<Name, Data>) {
    forall n :: n in files ==> n in all && files[n] == all[n]
  }

  /** A completed generation cut under the current parser, with its parameters on record. */
  predicate Source(w: World, kb: KbId, j: JobId) {
    j in w.jobs && j in Window(w.jobs, kb) && Recorded(w.jobs[j]) && w.jobs[j].parserRev == Some(w.rev)
  }

  /** A queued job staged from part of such a generation, under that generation's shape. */
  ghost predicate StagedFrom(w: World, id: JobId, source: JobId) {
    && Waits(w, id) && Source(w, w.jobs[id].kb, source) && HasDir(w, source) && HasDir(w, id)
    && SameFiles(DirOf(w, id).files, DirOf(w, source).files)
    && JobShape(w.jobs[id], w.kbs[w.jobs[id].kb]) == ShapeOf(w.jobs[source]).(model := if Embeds(w.jobs[source].kbType) then w.jobs[source].model else None)
  }

  lemma BegunKeeps(t: Tools, w: World, id: JobId)
    requires Inv(t, w) && CollisionFree(t) && Waits(w, id)
    ensures Inv(t, Begun(w, id)) && (Whole(w) ==> Whole(Begun(w, id)))
  {
    BeginsSo(w, id);
    StepKeeps(t, w, DoDispatch(id));
    StepKeeps(t, Dispatch(w, id), DoStart(id));
    if Whole(w) {
      WholeKeeps(t, w, DoDispatch(id));
      WholeKeeps(t, Dispatch(w, id), DoStart(id));
    }
  }

  lemma {:induction false} ReadSomeKeeps(t: Tools, w: World, id: JobId, n: nat)
    requires Inv(t, w) && CollisionFree(t)
    ensures Inv(t, ReadSome(w, id, n))
    decreases n
  {
    if n > 0 {
      StepKeeps(t, w, DoLoadNext(id));
      ReadSomeKeeps(t, LoadNext(w, id), id, n - 1);
    }
  }

  lemma ReadyKeeps(t: Tools, w: World, id: JobId)
    requires Inv(t, w) && CollisionFree(t) && Waits(w, id)
    ensures Inv(t, Ready(w, id))
  {
    BeginsSo(w, id);
    BegunKeeps(t, w, id);
    StepKeeps(t, Begun(w, id), DoLoadCandidates(id));
    ReadSomeKeeps(t, LoadCandidates(Begun(w, id), id), id, 2);
  }

  lemma ReadyIsWhole(t: Tools, w: World, id: JobId)
    requires Inv(t, w) && CollisionFree(t) && Waits(w, id) && Whole(w)
    ensures Whole(Ready(w, id))
  {
    ReadyHolds(w, id);
    BegunKeeps(t, w, id);
    var b := Begun(w, id);
    if Embeds(b.workers[id].shape.kbType) { WindowOffersWhole(b, w.jobs[id].kb, b.workers[id].shape); }
    HoldingIsWhole(b, id, Offered(b, w.jobs[id].kb, b.workers[id].shape));
  }

  lemma WindowOffersWhole(b: World, kb: KbId, shape: Shape)
    requires Whole(b) && Embeds(shape.kbType)
    ensures WholeReuse(Offered(b, kb, shape))
  {}

  lemma HoldingIsWhole(b: World, id: JobId, reuse: Reuse)
    requires Whole(b) && id in b.workers && (Embeds(b.workers[id].shape.kbType) ==> WholeReuse(reuse))
    ensures Whole(Holding(b, id, [], reuse))
  {}

  /** A worker that has read all of its source, whatever else has happened since. */
  ghost predicate Copying(w: World, id: JobId, source: JobId) {
    && ReadyToFinish(w, id) && source in w.jobs && source in w.docs && source in Window(w.jobs, w.jobs[id].kb)
    && Recorded(w.jobs[source]) && w.jobs[source].parserRev == Some(w.rev)
    && HasDir(w, source) && HasDir(w, id) && SameFiles(DirOf(w, id).files, DirOf(w, source).files)
    && var shape := w.workers[id].shape;
    && shape.(model := None) == ShapeOf(w.jobs[source]).(model := None)
    && (Embeds(shape.kbType) ==> shape.model == w.jobs[source].model)
    && (Embeds(shape.kbType) ==> Keyed(w.docs[source].rows).Keys <= w.workers[id].phase.reuse.Keys)
  }

  /** A copy of (part of) a window generation costs no embedding at all. */
  lemma CopyIsFree(t: Tools, w: World, id: JobId, source: JobId)
    requires Inv(t, w) && CollisionFree(t) && Copying(w, id, source)
    ensures var k := w.workers[id]; Embedded(t, w.rev, k.shape, k.phase.reuse, DirFiles(w, k.version)) == {}
  {
    var k := w.workers[id];
    assert WorkerInv(t, w, id) && JobInv(t, w, source);
    if Embeds(k.shape.kbType) {
      NothingToEmbed(t, w.rev, k.shape, k.phase.reuse, w.docs[source].rows, DirFiles(w, k.version));
    }
  }

  function Only(rows: map<Name, Doc>, names: set<Name>): map<Name, Doc> {
    map n | n in rows && n in names :: rows[n]
  }

  lemma ModelIsMoot(t: Tools, rev: int, shape: Shape, n: Name, data: Data)
    requires !Embeds(shape.kbType)
    ensures FreshDoc(t, rev, shape, n, data) == FreshDoc(t, rev, shape.(model := None), n, data)
  {}

  lemma CopyRows(t: Tools, w: World, id: JobId, source: JobId)
    requires Inv(t, w) && CollisionFree(t) && Whole(w) && Copying(w, id, source)
    ensures var k := w.workers[id];
      Rows(t, w.rev, k.shape, k.phase.reuse, DirFiles(w, k.version)) == Only(w.docs[source].rows, DirOf(w, id).files.Keys)
  {
    var k := w.workers[id];
    var files := DirOf(w, id).files;
    assert WorkerInv(t, w, id) && WholeWorker(w, id);
    WindowIsFresh(t, w, w.jobs[id].kb, source);
    forall n | n in files
      ensures n in w.docs[source].rows && RowFor(t, w.rev, k.shape, k.phase.reuse, n, files[n]) == w.docs[source].rows[n]
    {
      CopiedRow(t, w.rev, k.shape, k.phase.reuse, n, files[n]);
      if !Embeds(k.shape.kbType) {
        ModelIsMoot(t, w.rev, k.shape, n, files[n]);
        ModelIsMoot(t, w.rev, ShapeOf(w.jobs[source]), n, files[n]);
      }
    }
  }

  /** ... and completes with exactly its source's documents, chunks and vectors. */
  lemma CopyIsExact(t: Tools, w: World, id: JobId, source: JobId, embedOk: bool)
    requires Inv(t, w) && CollisionFree(t) && Whole(w) && Copying(w, id, source)
    requires Readable(w.docs[source].rows) * DirOf(w, id).files.Keys != {}
    ensures var w' := Finish(t, w, id, embedOk);
      && w'.jobs == w.jobs[id := w'.jobs[id]] && w'.jobs[id].kb == w.jobs[id].kb && w'.jobs[id].version == w.jobs[id].version
      && w'.jobs[id].status == Completed && Recorded(w'.jobs[id]) && w'.jobs[id].parserRev == Some(w.rev)
      && ShapeOf(w'.jobs[id]) == w.workers[id].shape
      && w'.docs == w.docs[id := RowSet(w.jobs[id].kb, Only(w.docs[source].rows, DirOf(w, id).files.Keys))]
      && w'.dirs == w.dirs && w'.kbs == w.kbs && w'.refs == w.refs && w'.rev == w.rev && w'.workers == w.workers - {id}
  {
    CopyIsFree(t, w, id, source);
    CopyRows(t, w, id, source);
    assert WorkerInv(t, w, id);
    var rows := Only(w.docs[source].rows, DirOf(w, id).files.Keys);
    assert Readable(rows) == Readable(w.docs[source].rows) * DirOf(w, id).files.Keys;
  }

  lemma CopiedRow(t: Tools, rev: int, shape: Shape, reuse: Reuse, n: Name, data: Data)
    requires CollisionFree(t) && ReuseSound(t, rev, shape, reuse) && (Embeds(shape.kbType) ==> WholeReuse(reuse))
    ensures RowFor(t, rev, shape, reuse, n, data) == FreshDoc(t, rev, shape, n, data)
  {}

  // ------------------------------------------------------------------ a whole request

  /** An undisturbed worker reads all of its source. */
  lemma UndisturbedCopies(t: Tools, w: World, id: JobId, source: JobId)
    requires Inv(t, w) && CollisionFree(t) && StagedFrom(w, id, source)
    ensures var r := Ready(w, id);
      && Inv(t, r) && (Whole(w) ==> Whole(r)) && Copying(r, id, source)
      && r.jobs == w.jobs[id := r.jobs[id]] && r.docs == w.docs && r.dirs == w.dirs && r.kbs == w.kbs && r.rev == w.rev
      && r.jobs[id].kb == w.jobs[id].kb && r.jobs[id].version == w.jobs[id].version
      && r.workers[id].shape == JobShape(w.jobs[id], w.kbs[w.jobs[id].kb])
  {
    ReadyKeeps(t, w, id);
    if Whole(w) { ReadyIsWhole(t, w, id); }
    SourceHasRows(t, w, id, source);
    ReadyCopies(w, id, source);
  }

  lemma SourceHasRows(t: Tools, w: World, id: JobId, source: JobId)
    requires Inv(t, w) && StagedFrom(w, id, source)
    ensures source in w.docs && id != source
  {
    assert JobInv(t, w, source);
  }

  lemma ReadyCopies(w: World, id: JobId, source: JobId)
    requires StagedFrom(w, id, source) && source in w.docs && id != source
    ensures var r := Ready(w, id);
      && Copying(r, id, source)
      && r.jobs == w.jobs[id := r.jobs[id]] && r.docs == w.docs && r.dirs == w.dirs && r.kbs == w.kbs && r.rev == w.rev
      && r.jobs[id].kb == w.jobs[id].kb && r.jobs[id].version == w.jobs[id].version
      && r.workers[id].shape == JobShape(w.jobs[id], w.kbs[w.jobs[id].kb])
  {
    ReadyHolds(w, id);
    BegunWindows(w, id, w.jobs[id].kb);
    HoldingCopies(w, id, source);
  }

  lemma HoldingCopies(w: World, id: JobId, source: JobId)
    requires StagedFrom(w, id, source) && source in w.docs && id != source
    requires CompletedIds(Begun(w, id).jobs, w.jobs[id].kb) == CompletedIds(w.jobs, w.jobs[id].kb)
    ensures var b := Begun(w, id); Copying(Holding(b, id, [], Offered(b, w.jobs[id].kb, b.workers[id].shape)), id, source)
  {}

  /** The live generation's and the one before it's, once one more job has completed on top. */
  lemma NextWindow(jobs: map<JobId, Job>, jobs': map<JobId, Job>, kb: KbId, id: JobId)
    requires Live(jobs, kb).Some? && forall j :: j in jobs ==> j < id
    requires {Live(jobs, kb).value, id} <= CompletedIds(jobs', kb) <= CompletedIds(jobs, kb) + {id}
    ensures Live(jobs', kb) == Some(id) && Previous(jobs', kb) == Live(jobs, kb)
  {
    var live := Live(jobs, kb).value;
    assert forall x :: x in CompletedIds(jobs', kb) && x != id ==> x in CompletedIds(jobs, kb) && x < id;
    assert live in CompletedIds(jobs', kb) - {id};
  }

  /** What a generation serves: its documents, its staged files and the shape it was cut in. */
  predicate SameGeneration(w: World, j: JobId, w': World, j': JobId) {
    && j in w.jobs && j' in w'.jobs && j in w.docs && j' in w'.docs && HasDir(w, j) && HasDir(w', j')
    && w.docs[j].rows == w'.docs[j'].rows
    && DirOf(w, j).files == DirOf(w', j').files
    && w.jobs[j].kbType == w'.jobs[j'].kbType && w.jobs[j].size == w'.jobs[j'].size && w.jobs[j].overlap == w'.jobs[j'].overlap
    && (Embeds(w.jobs[j].kbType) ==> w.jobs[j].model == w'.jobs[j'].model)
    && w.jobs[j].parserRev == w'.jobs[j'].parserRev
  }

  lemma RestoredWorld(t: Tools, w: World, kb: KbId, id: JobId, v: Version)
    requires Restore(t, w, kb, id, v).Accepted?
    ensures kb in w.kbs && Previous(w.jobs, kb).Some? && !AnyInFlight(w.jobs, kb)
    ensures var p := w.jobs[Previous(w.jobs, kb).value];
      && p.version in w.dirs
      && Restore(t, w, kb, id, v).world == WithJob(w, id, kb, v, JobShape(p, w.kbs[kb]), w.dirs[p.version].files)
  {
    var p := w.jobs[Previous(w.jobs, kb).value];
    assert Carried(t, w.dirs[p.version].files, {}, false) == w.dirs[p.version].files;
  }

  lemma RestoreStages(t: Tools, w: World, kb: KbId, id: JobId, v: Version)
    requires Inv(t, w) && FreshIds(w, id, v) && Restore(t, w, kb, id, v).Accepted?
    requires Source(w, kb, Previous(w.jobs, kb).value)
    ensures var p := Previous(w.jobs, kb).value; var w0 := Restore(t, w, kb, id, v).world;
      && StagedFrom(w0, id, p) && HasDir(w, p) && DirOf(w0, id).files == DirOf(w, p).files
      && w0.jobs == w.jobs[id := w0.jobs[id]] && w0.jobs[id].kb == kb && w0.jobs[id].version == v
      && w0.docs == w.docs && w0.dirs == w.dirs[v := Dir(kb, DirOf(w, p).files)] && w0.kbs == w.kbs && w0.rev == w.rev
      && Window(w0.jobs, kb) == Window(w.jobs, kb)
  {
    var p := Previous(w.jobs, kb).value;
    RestoredWorld(t, w, kb, id, v);
    assert forall i :: i in w.workers ==> WorkerInv(t, w, i);
    WithJobStages(w, kb, id, v, p, DirOf(w, p).files);
  }

  lemma WithJobStages(w: World, kb: KbId, id: JobId, v: Version, p: JobId, files: map<Name, Data>)
    requires FreshIds(w, id, v) && id !in w.workers && kb in w.kbs && Source(w, kb, p) && HasDir(w, p) && SameFiles(files, DirOf(w, p).files)
    ensures var w0 := WithJob(w, id, kb, v, JobShape(w.jobs[p], w.kbs[kb]), files);
      StagedFrom(w0, id, p) && Window(w0.jobs, kb) == Window(w.jobs, kb)
  {
    WithJobWindows(w, id, kb, v, JobShape(w.jobs[p], w.kbs[kb]), files, kb);
  }

  /** A restore embeds nothing, whichever way the embedding provider would have answered. */
  lemma RestoreIsFree(t: Tools, w: World, kb: KbId, id: JobId, v: Version)
    requires Inv(t, w) && CollisionFree(t) && FreshIds(w, id, v) && Restore(t, w, kb, id, v).Accepted?
    requires Source(w, kb, Previous(w.jobs, kb).value)
    ensures var r := Ready(Restore(t, w, kb, id, v).world, id);
      && ReadyToFinish(r, id)
      && var k := r.workers[id]; Embedded(t, r.rev, k.shape, k.phase.reuse, DirFiles(r, k.version)) == {}
  {
    RestoreStages(t, w, kb, id, v);
    StepKeeps(t, w, DoRestore(kb, id, v));
    CopiesFreely(t, Restore(t, w, kb, id, v).world, id, Previous(w.jobs, kb).value);
  }

  lemma CopiesFreely(t: Tools, w: World, id: JobId, p: JobId)
    requires Inv(t, w) && CollisionFree(t) && StagedFrom(w, id, p)
    ensures var r := Ready(w, id);
      && ReadyToFinish(r, id)
      && var k := r.workers[id]; Embedded(t, r.rev, k.shape, k.phase.reuse, DirFiles(r, k.version)) == {}
  {
    UndisturbedCopies(t, w, id, p);
    CopyIsFree(t, Ready(w, id), id, p);
  }

  lemma RemovalStages(t: Tools, w: World, kb: KbId, file: Name, id: JobId, v: Version)
    requires Inv(t, w) && FreshIds(w, id, v) && RemoveDocument(t, w, kb, file, id, v).Accepted?
    requires Source(w, kb, Live(w.jobs, kb).value)
    ensures var live := Live(w.jobs, kb).value; var w0 := RemoveDocument(t, w, kb, file, id, v).world;
      && StagedFrom(w0, id, live) && HasDir(w, live) && DirOf(w0, id).files == DirOf(w, live).files - {file}
      && live in w.docs && w0.docs == w.docs && w0.jobs[id].kb == kb && w0.rev == w.rev
  {
    var live := Live(w.jobs, kb).value;
    RemovedWorld(t, w, kb, file, id, v);
    LiveCovers(t, w, kb);
    CarriedButOne(t, DirOf(w, live).files, file);
    assert forall i :: i in w.workers ==> WorkerInv(t, w, i);
    WithJobStages(w, kb, id, v, live, DirOf(w, live).files - {file});
  }

  lemma CarriedButOne(t: Tools, files: map<Name, Data>, file: Name)
    ensures Carried(t, files, {file}, true) == files - {file}
  {}

  lemma RemovalIsFree(t: Tools, w: World, kb: KbId, file: Name, id: JobId, v: Version)
    requires Inv(t, w) && CollisionFree(t) && FreshIds(w, id, v) && RemoveDocument(t, w, kb, file, id, v).Accepted?
    requires Source(w, kb, Live(w.jobs, kb).value)
    ensures var r := Ready(RemoveDocument(t, w, kb, file, id, v).world, id);
      && ReadyToFinish(r, id)
      && var k := r.workers[id]; Embedded(t, r.rev, k.shape, k.phase.reuse, DirFiles(r, k.version)) == {}
  {
    RemovalStages(t, w, kb, file, id, v);
    StepKeeps(t, w, DoRemove(kb, file, id, v));
    CopiesFreely(t, RemoveDocument(t, w, kb, file, id, v).world, id, Live(w.jobs, kb).value);
  }

  /** A removal's job completes with the live generation's documents but the named one, each
      with the chunks and vectors it had. */
  lemma RemovalDropsOne(t: Tools, w: World, kb: KbId, file: Name, id: JobId, v: Version, embedOk: bool)
    requires Inv(t, w) && Whole(w) && CollisionFree(t) && FreshIds(w, id, v) && RemoveDocument(t, w, kb, file, id, v).Accepted?
    requires Source(w, kb, Live(w.jobs, kb).value)
    ensures var live := Live(w.jobs, kb).value; var w' := Worked(t, RemoveDocument(t, w, kb, file, id, v).world, id, embedOk);
      && id in w'.jobs && w'.jobs[id].status == Completed && live in w.docs
      && id in w'.docs && w'.docs[id].rows == w.docs[live].rows - {file}
  {
    var live := Live(w.jobs, kb).value;
    RemovalStages(t, w, kb, file, id, v);
    StepKeeps(t, w, DoRemove(kb, file, id, v));
    WholeKeeps(t, w, DoRemove(kb, file, id, v));
    LiveCovers(t, w, kb);
    RemovalLeavesReadable(t, w, kb, file, id, v, DirOf(w, live).files.Keys - {file});
    StagedCompletes(t, RemoveDocument(t, w, kb, file, id, v).world, id, live, embedOk);
    OnlyTheOthers(w.docs[live].rows, file);
  }

  lemma LiveCovers(t: Tools, w: World, kb: KbId)
    requires Inv(t, w) && Live(w.jobs, kb).Some?
    ensures var live := Live(w.jobs, kb).value; live in w.docs && HasDir(w, live) && w.docs[live].rows.Keys == DirOf(w, live).files.Keys
  {}

  lemma OnlyTheOthers(rows: map<Name, Doc>, file: Name)
    ensures Only(rows, rows.Keys - {file}) == rows - {file}
  {}

  lemma StagedCompletes(t: Tools, w: World, id: JobId, p: JobId, embedOk: bool)
    requires Inv(t, w) && Whole(w) && CollisionFree(t) && StagedFrom(w, id, p) && p in w.docs
    requires Readable(w.docs[p].rows) * DirOf(w, id).files.Keys != {}
    ensures var w' := Worked(t, w, id, embedOk);
      && id in w'.jobs && w'.jobs[id].status == Completed
      && id in w'.docs && w'.docs[id].rows == Only(w.docs[p].rows, DirOf(w, id).files.Keys)
  {
    UndisturbedCopies(t, w, id, p);
    ExactCompletes(t, Ready(w, id), id, p, embedOk);
  }

  lemma ExactCompletes(t: Tools, r: World, id: JobId, p: JobId, embedOk: bool)
    requires Inv(t, r) && Whole(r) && CollisionFree(t) && Copying(r, id, p)
    requires Readable(r.docs[p].rows) * DirOf(r, id).files.Keys != {}
    ensures var w' := Finish(t, r, id, embedOk);
      && id in w'.jobs && w'.jobs[id].status == Completed
      && id in w'.docs && w'.docs[id].rows == Only(r.docs[p].rows, DirOf(r, id).files.Keys)
  {
    CopyIsExact(t, r, id, p, embedOk);
  }

  lemma RemovalLeavesReadable(t: Tools, w: World, kb: KbId, file: Name, id: JobId, v: Version, names: set<Name>)
    requires RemoveDocument(t, w, kb, file, id, v).Accepted? && Live(w.jobs, kb).Some? && Live(w.jobs, kb).value in w.docs
    requires names == w.docs[Live(w.jobs, kb).value].rows.Keys - {file}
    ensures Readable(w.docs[Live(w.jobs, kb).value].rows) * names != {}
  {}

  /** A step of one of the prunes that end a worker's run, on this collection or another. */
  predicate IsPrune(s: Step) {
    s.DoListOld? || s.DoLookUp? || s.DoListFailed? || s.DoDropDir? || s.DoCommitPrune? || s.DoEndPrune?
  }

  predicate Prunes(steps: seq<Step>) { forall i :: 0 <= i < |steps| ==> IsPrune(steps[i]) }

  /** A restore accepted, run to completion and pruned. */
  function Restored(t: Tools, w: World, kb: KbId, id: JobId, v: Version, embedOk: bool, prunes: seq<Step>): World
    requires Restore(t, w, kb, id, v).Accepted?
  {
    Run(t, Worked(t, Restore(t, w, kb, id, v).world, id, embedOk), prunes)
  }

  /** One restore: the previous generation is live again, the undone one comes right behind
      it, and neither has changed. */
  lemma RestoreGivesBack(t: Tools, w: World, kb: KbId, id: JobId, v: Version, embedOk: bool, prunes: seq<Step>)
    requires Inv(t, w) && Whole(w) && CollisionFree(t) && FreshIds(w, id, v) && Restore(t, w, kb, id, v).Accepted?
    requires Source(w, kb, Previous(w.jobs, kb).value) && Prunes(prunes)
    ensures var w' := Restored(t, w, kb, id, v, embedOk, prunes);
      && Inv(t, w') && Whole(w') && OnTop(w.jobs, w', kb, id) && w'.rev == w.rev
      && Live(w'.jobs, kb) == Some(id) && Previous(w'.jobs, kb) == Live(w.jobs, kb)
      && SameGeneration(w, Previous(w.jobs, kb).value, w', id)
      && Kept(w, w', Live(w.jobs, kb).value)
  {
    var p := Previous(w.jobs, kb).value;
    RestoredWorld(t, w, kb, id, v);
    RestoreStages(t, w, kb, id, v);
    StepKeeps(t, w, DoRestore(kb, id, v));
    WholeKeeps(t, w, DoRestore(kb, id, v));
    assert JobInv(t, w, p);
    RestoreFinishes(t, w, Restore(t, w, kb, id, v).world, kb, id, v, p, embedOk);
    PrunesFollow(t, w, Worked(t, Restore(t, w, kb, id, v).world, id, embedOk), kb, id, v, p, prunes);
  }

  /** What a finished copy of all of `p` looks like beside the world it started from. */
  ghost predicate Copied(w: World, f: World, kb: KbId, id: JobId, v: Version, p: JobId) {
    && p in w.jobs && p in w.docs && HasDir(w, p) && Recorded(w.jobs[p])
    && id in f.jobs && f.jobs == w.jobs[id := f.jobs[id]] && f.jobs[id].kb == kb && f.jobs[id].version == v
    && f.jobs[id].status == Completed && Recorded(f.jobs[id]) && f.jobs[id].parserRev == w.jobs[p].parserRev
    && ShapeOf(f.jobs[id]) == ShapeOf(w.jobs[p]).(model := if Embeds(w.jobs[p].kbType) then w.jobs[p].model else None)
    && f.docs == w.docs[id := RowSet(kb, w.docs[p].rows)]
    && f.dirs == w.dirs[v := Dir(kb, DirOf(w, p).files)] && kb in f.kbs && f.rev == w.rev
  }

  lemma RestoreFinishes(t: Tools, w: World, w0: World, kb: KbId, id: JobId, v: Version, p: JobId, embedOk: bool)
    requires Inv(t, w0) && Whole(w0) && CollisionFree(t) && kb in w.kbs
    requires p in w.jobs && p in w.docs && HasDir(w, p) && w.docs[p].rows.Keys == DirOf(w, p).files.Keys && Readable(w.docs[p].rows) != {}
    requires Recorded(w.jobs[p]) && w.jobs[p].parserRev == Some(w.rev)
    requires StagedFrom(w0, id, p) && w0.dirs == w.dirs[v := Dir(kb, DirOf(w, p).files)]
    requires w0.jobs == w.jobs[id := w0.jobs[id]] && w0.jobs[id].kb == kb && w0.jobs[id].version == v && p != id
    requires w0.docs == w.docs && w0.kbs == w.kbs && w0.rev == w.rev
    ensures var f := Worked(t, w0, id, embedOk); Inv(t, f) && Whole(f) && Copied(w, f, kb, id, v, p)
  {
    UndisturbedCopies(t, w0, id, p);
    var r := Ready(w0, id);
    Overwritten(w.jobs, w0.jobs, r.jobs, id);
    ReadyFinishes(t, w, r, kb, id, v, p, embedOk);
  }

  lemma Overwritten(a: map<JobId, Job>, b: map<JobId, Job>, c: map<JobId, Job>, id: JobId)
    requires id in b && id in c && b == a[id := b[id]] && c == b[id := c[id]]
    ensures c == a[id := c[id]]
  {}

  lemma ReadyFinishes(t: Tools, w: World, r: World, kb: KbId, id: JobId, v: Version, p: JobId, embedOk: bool)
    requires Inv(t, r) && Whole(r) && CollisionFree(t) && kb in w.kbs && Copying(r, id, p)
    requires p in w.jobs && p in w.docs && HasDir(w, p) && w.docs[p].rows.Keys == DirOf(w, p).files.Keys && Readable(w.docs[p].rows) != {}
    requires Recorded(w.jobs[p]) && w.jobs[p].parserRev == Some(w.rev) && p != id
    requires r.jobs == w.jobs[id := r.jobs[id]] && r.jobs[id].kb == kb && r.jobs[id].version == v
    requires r.docs == w.docs && r.dirs == w.dirs[v := Dir(kb, DirOf(w, p).files)] && r.kbs == w.kbs && r.rev == w.rev
    requires r.workers[id].shape == ShapeOf(w.jobs[p]).(model := if Embeds(w.jobs[p].kbType) then w.jobs[p].model else None)
    ensures var f := Finish(t, r, id, embedOk); Inv(t, f) && Whole(f) && Copied(w, f, kb, id, v, p)
  {
    assert DirOf(r, id).files == DirOf(w, p).files;
    assert Only(w.docs[p].rows, DirOf(w, p).files.Keys) == w.docs[p].rows;
    assert Readable(w.docs[p].rows) * DirOf(w, p).files.Keys == Readable(w.docs[p].rows);
    CopyFinishes(t, r, id, p, embedOk);
    Overwritten(w.jobs, r.jobs, Finish(t, r, id, embedOk).jobs, id);
    CopiedSo(w, r, Finish(t, r, id, embedOk), kb, id, v, p, r.workers[id].shape);
  }

  lemma CopiedSo(w: World, r: World, f: World, kb: KbId, id: JobId, v: Version, p: JobId, shape: Shape)
    requires p in w.jobs && p in w.docs && HasDir(w, p) && Recorded(w.jobs[p]) && kb in w.kbs && p != id
    requires id in r.jobs && id in f.jobs && r.jobs == w.jobs[id := r.jobs[id]] && r.jobs[id].kb == kb && r.jobs[id].version == v
    requires r.docs == w.docs && r.dirs == w.dirs[v := Dir(kb, DirOf(w, p).files)] && r.kbs == w.kbs && r.rev == w.rev
    requires f.jobs == r.jobs[id := f.jobs[id]] && f.jobs[id].kb == kb && f.jobs[id].version == v
    requires f.jobs[id].status == Completed && Recorded(f.jobs[id]) && f.jobs[id].parserRev == Some(w.rev) == w.jobs[p].parserRev
    requires ShapeOf(f.jobs[id]) == shape == ShapeOf(w.jobs[p]).(model := if Embeds(w.jobs[p].kbType) then w.jobs[p].model else None)
    requires f.docs == r.docs[id := RowSet(kb, w.docs[p].rows)] && f.dirs == r.dirs && f.kbs == r.kbs && f.rev == r.rev
    ensures Copied(w, f, kb, id, v, p)
  {}

  lemma CopiedIsKept(w: World, f: World, w': World, kb: KbId, id: JobId, v: Version, p: JobId, live: JobId)
    requires Copied(w, f, kb, id, v, p) && live in w.jobs && FreshIds(w, id, v)
    requires Kept(f, w', id) && Kept(f, w', live)
    ensures SameGeneration(w, p, w', id) && Kept(w, w', live)
  {}

  lemma PrunesFollow(t: Tools, w: World, f: World, kb: KbId, id: JobId, v: Version, p: JobId, prunes: seq<Step>)
    requires Inv(t, f) && Whole(f) && CollisionFree(t) && Copied(w, f, kb, id, v, p) && FreshIds(w, id, v) && Prunes(prunes)
    requires Live(w.jobs, kb).Some? && !AnyInFlight(w.jobs, kb)
    ensures var w' := Run(t, f, prunes);
      && Inv(t, w') && Whole(w') && OnTop(w.jobs, w', kb, id) && w'.rev == w.rev
      && Live(w'.jobs, kb) == Some(id) && Previous(w'.jobs, kb) == Live(w.jobs, kb)
      && SameGeneration(w, p, w', id)
      && Kept(w, w', Live(w.jobs, kb).value)
  {
    var live := Live(w.jobs, kb).value;
    FinishedOnTop(w, f, kb, id);
    PrunesKeepWindow(t, w.jobs, f, kb, id, prunes);
    NextWindow(w.jobs, Run(t, f, prunes).jobs, kb, id);
    CopiedIsKept(w, f, Run(t, f, prunes), kb, id, v, p, live);
  }

  lemma CopyFinishes(t: Tools, r: World, id: JobId, p: JobId, embedOk: bool)
    requires Inv(t, r) && Whole(r) && CollisionFree(t) && Copying(r, id, p)
    requires Readable(r.docs[p].rows) * DirOf(r, id).files.Keys != {}
    ensures var f := Finish(t, r, id, embedOk);
      && Inv(t, f) && Whole(f)
      && f.jobs == r.jobs[id := f.jobs[id]] && f.jobs[id].kb == r.jobs[id].kb && f.jobs[id].version == r.jobs[id].version
      && f.jobs[id].status == Completed && Recorded(f.jobs[id]) && f.jobs[id].parserRev == Some(r.rev)
      && ShapeOf(f.jobs[id]) == r.workers[id].shape
      && f.docs == r.docs[id := RowSet(r.jobs[id].kb, Only(r.docs[p].rows, DirOf(r, id).files.Keys))]
      && f.dirs == r.dirs && f.kbs == r.kbs && f.rev == r.rev
  {
    CopyIsExact(t, r, id, p, embedOk);
    StepKeeps(t, r, DoFinish(id, embedOk));
    WholeKeeps(t, r, DoFinish(id, embedOk));
  }

  /** `id` has completed on top of the generations in `jobs`. */
  predicate OnTop(jobs: map<JobId, Job>, f: World, kb: KbId, id: JobId) {
    && Live(jobs, kb).Some? && kb in f.kbs && !AnyInFlight(f.jobs, kb)
    && {Live(jobs, kb).value, id} <= CompletedIds(f.jobs, kb) <= CompletedIds(jobs, kb) + {id}
    && forall j :: j in jobs ==> j < id
  }

  lemma FinishedOnTop(w: World, f: World, kb: KbId, id: JobId)
    requires Live(w.jobs, kb).Some? && kb in f.kbs && (forall j :: j in w.jobs ==> j < id) && !AnyInFlight(w.jobs, kb)
    requires id in f.jobs && f.jobs[id].kb == kb && f.jobs[id].status == Completed && f.jobs.Keys == w.jobs.Keys + {id}
    requires forall j :: j in w.jobs ==> f.jobs[j] == w.jobs[j]
    ensures OnTop(w.jobs, f, kb, id)
  {
    forall j ensures j in CompletedIds(f.jobs, kb) <==> j in CompletedIds(w.jobs, kb) || j == id {
      assert j in f.jobs <==> j in w.jobs || j == id;
    }
  }

  lemma PruneKeepsWindow(t: Tools, jobs: map<JobId, Job>, f: World, kb: KbId, id: JobId, s: Step)
    requires Inv(t, f) && Whole(f) && CollisionFree(t) && IsPrune(s) && OnTop(jobs, f, kb, id)
    ensures var w' := Apply(t, f, s);
      && Inv(t, w') && Whole(w') && OnTop(jobs, w', kb, id) && w'.rev == f.rev
      && Kept(f, w', id) && Kept(f, w', Live(jobs, kb).value)
      && (id in f.docs ==> id in w'.docs)
  {
    PruneKeepsBoth(t, jobs, f, kb, id, s);
    StepKeeps(t, f, s);
    WholeKeeps(t, f, s);
  }

  lemma PruneKeepsBoth(t: Tools, jobs: map<JobId, Job>, f: World, kb: KbId, id: JobId, s: Step)
    requires Inv(t, f) && IsPrune(s) && OnTop(jobs, f, kb, id)
    ensures var w' := Apply(t, f, s);
      OnTop(jobs, w', kb, id) && w'.rev == f.rev && Kept(f, w', id) && Kept(f, w', Live(jobs, kb).value) && (id in f.docs ==> id in w'.docs)
  {
    NextWindow(jobs, f.jobs, kb, id);
    PruneShrinks(t, f, s);
    WindowKept(t, f, s, kb, id);
    WindowKept(t, f, s, kb, Live(jobs, kb).value);
    StaysOnTop(jobs, f, Apply(t, f, s), kb, id);
  }

  lemma PruneShrinks(t: Tools, f: World, s: Step)
    requires IsPrune(s)
    ensures var w' := Apply(t, f, s); w'.kbs == f.kbs && w'.rev == f.rev && forall j :: j in w'.jobs ==> j in f.jobs && w'.jobs[j] == f.jobs[j]
  {}

  lemma StaysOnTop(jobs: map<JobId, Job>, f: World, w': World, kb: KbId, id: JobId)
    requires OnTop(jobs, f, kb, id) && w'.kbs == f.kbs && Live(jobs, kb).value in f.jobs && id in f.jobs
    requires Kept(f, w', id) && Kept(f, w', Live(jobs, kb).value)
    requires forall j :: j in w'.jobs ==> j in f.jobs && w'.jobs[j] == f.jobs[j]
    ensures OnTop(jobs, w', kb, id)
  {
    assert forall j :: j in CompletedIds(w'.jobs, kb) ==> j in CompletedIds(f.jobs, kb);
  }

  /** The prunes that end a run touch neither generation of the new window. */
  lemma {:induction false} PrunesKeepWindow(t: Tools, jobs: map<JobId, Job>, f: World, kb: KbId, id: JobId, prunes: seq<Step>)
    requires Inv(t, f) && Whole(f) && CollisionFree(t) && Prunes(prunes) && OnTop(jobs, f, kb, id)
    ensures var w' := Run(t, f, prunes);
      && Inv(t, w') && Whole(w') && OnTop(jobs, w', kb, id) && w'.rev == f.rev
      && Kept(f, w', id) && Kept(f, w', Live(jobs, kb).value)
    decreases |prunes|
  {
    if prunes != [] {
      PruneKeepsWindow(t, jobs, f, kb, id, prunes[0]);
      PrunesKeepWindow(t, jobs, Apply(t, f, prunes[0]), kb, id, prunes[1..]);
    }
  }

  /** Restoring twice gives back both generations just as they were. */
  lemma RestoreTwice(t: Tools, w: World, kb: KbId, id1: JobId, v1: Version, ok1: bool, prunes1: seq<Step>,
                     id2: JobId, v2: Version, ok2: bool, prunes2: seq<Step>)
    requires Inv(t, w) && Whole(w) && CollisionFree(t) && FreshIds(w, id1, v1) && Restore(t, w, kb, id1, v1).Accepted?
    requires Source(w, kb, Previous(w.jobs, kb).value) && Source(w, kb, Live(w.jobs, kb).value)
    requires |DirFiles(w, w.jobs[Live(w.jobs, kb).value].version)| <= MAX_DOCUMENTS_PER_KB
    requires Prunes(prunes1) && Prunes(prunes2)
    requires FreshIds(Restored(t, w, kb, id1, v1, ok1, prunes1), id2, v2)
    ensures var w1 := Restored(t, w, kb, id1, v1, ok1, prunes1);
      && Restore(t, w1, kb, id2, v2).Accepted?
      && var w2 := Restored(t, w1, kb, id2, v2, ok2, prunes2);
         && Live(w2.jobs, kb) == Some(id2) && SameGeneration(w, Live(w.jobs, kb).value, w2, id2)
         && Previous(w2.jobs, kb) == Some(id1) && SameGeneration(w, Previous(w.jobs, kb).value, w2, id1)
  {
    var live := Live(w.jobs, kb).value;
    RestoreGivesBack(t, w, kb, id1, v1, ok1, prunes1);
    assert JobInv(t, w, live) && Protected(w, live);
    SecondRestore(t, w, Restored(t, w, kb, id1, v1, ok1, prunes1), kb, live, id1, id2, v2, ok2, prunes2);
  }

  lemma SecondRestore(t: Tools, w: World, w1: World, kb: KbId, live: JobId, id1: JobId, id2: JobId, v2: Version, ok2: bool, prunes2: seq<Step>)
    requires Inv(t, w1) && Whole(w1) && CollisionFree(t) && FreshIds(w1, id2, v2) && Prunes(prunes2)
    requires kb in w1.kbs && !AnyInFlight(w1.jobs, kb) && Live(w1.jobs, kb) == Some(id1) && Previous(w1.jobs, kb) == Some(live)
    requires live in w.jobs && live in w.docs && HasDir(w, live) && Kept(w, w1, live) && Recorded(w.jobs[live]) && w.jobs[live].parserRev == Some(w1.rev)
    requires |DirOf(w, live).files| <= MAX_DOCUMENTS_PER_KB
    ensures Restore(t, w1, kb, id2, v2).Accepted?
    ensures var w2 := Restored(t, w1, kb, id2, v2, ok2, prunes2);
      && Live(w2.jobs, kb) == Some(id2) && SameGeneration(w, live, w2, id2)
      && Previous(w2.jobs, kb) == Some(id1) && id1 in w1.jobs && Kept(w1, w2, id1)
      && HasDir(w1, id1) && id1 in w1.docs && SameGeneration(w1, id1, w2, id1)
  {
    assert Carried(t, DirOf(w, live).files, {}, false) == DirOf(w, live).files;
    RestoreGivesBack(t, w1, kb, id2, v2, ok2, prunes2);
    assert JobInv(t, w1, id1) && Protected(w1, id1);
  }
}
