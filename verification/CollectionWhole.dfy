/** Incremental ingestion against the from-scratch parse, vectors included. */
module CollectionWhole {
  import opened Basics
  import opened Ingestion
  import opened Collections
  import opened CollectionInvariant
  import opened CollectionSteps
  import opened CollectionHistory

  predicate WholeChunks(cs: seq<Chunk>) {
    forall i :: 0 <= i < |cs| ==> cs[i].vector.Some?
  }

  predicate WholeRows(rows: map<Name, Doc>) {
    forall n :: n in rows && rows[n].Chunked? ==> WholeChunks(rows[n].chunks)
  }

  predicate WholeReuse(reuse: Reuse) {
    forall k :: k in reuse ==> WholeChunks(reuse[k])
  }

  ghost predicate WholeJob(w: World, j: JobId)
    requires j in w.jobs
  {
    Embeds(w.jobs[j].kbType) && j in w.docs ==> WholeRows(w.docs[j].rows)
  }

  predicate WholeWorker(w: World, id: JobId)
    requires id in w.workers
  {
    w.workers[id].phase.Loading? && Embeds(w.workers[id].shape.kbType) ==> WholeReuse(w.workers[id].phase.reuse)
  }

  /** No vector is missing from a window generation, nor from what a worker has read. */
  ghost predicate Whole(w: World) {
    && (forall j :: j in w.jobs && j in Window(w.jobs, w.jobs[j].kb) ==> WholeJob(w, j))
    && (forall id :: id in w.workers ==> WholeWorker(w, id))
  }

  // ------------------------------------------------------------------ the read that can go wrong

  /** A worker about to read a generation's chunks. */
  predicate Reading(w: World, id: JobId) {
    id in w.workers && w.workers[id].phase.Loading? && w.workers[id].phase.todo != []
  }

  /** What that read would add: the documents no newer generation has supplied. */
  predicate ReadsNull(w: World, id: JobId)
    requires Reading(w, id)
  {
    var k := w.workers[id];
    var c := k.phase.todo[0];
    && Embeds(k.shape.kbType) && Carryable(c.job, k.shape, w.rev) && c.id in w.docs
    && exists n :: n in w.docs[c.id].rows && w.docs[c.id].rows[n].Chunked? && (n, w.docs[c.id].rows[n].hash) !in k.phase.reuse
                   && !WholeChunks(w.docs[c.id].rows[n].chunks)
  }

  predicate ReadsWell(w: World, s: Step) {
    s.DoLoadNext? && Reading(w, s.job) ==> !ReadsNull(w, s.job)
  }

  /** The read leaves the worker whole exactly when no chunk it adds has lost its vector. */
  lemma ReadIsWholeIff(w: World, id: JobId)
    requires Reading(w, id) && WholeWorker(w, id)
    ensures WholeWorker(LoadNext(w, id), id) <==> !ReadsNull(w, id)
  {
    var k := w.workers[id];
    var c := k.phase.todo[0];
    if Embeds(k.shape.kbType) && Carryable(c.job, k.shape, w.rev) && c.id in w.docs {
      ReuseAfter(w.docs[c.id].rows, k.phase.reuse);
    } else {
      KeyedNone();
      NothingAdded(k.phase.reuse);
    }
  }

  lemma KeyedNone()
    ensures Keyed(map[]) == map[]
  {}

  lemma NothingAdded(reuse: Reuse)
    ensures map[] + reuse == reuse
  {}

  lemma ReuseAfter(rows: map<Name, Doc>, reuse: Reuse)
    requires WholeReuse(reuse)
    ensures WholeReuse(Keyed(rows) + reuse) <==>
      forall n :: n in rows && rows[n].Chunked? && (n, rows[n].hash) !in reuse ==> WholeChunks(rows[n].chunks)
  {
    var after := Keyed(rows) + reuse;
    forall n | WholeReuse(after) && n in rows && rows[n].Chunked? && (n, rows[n].hash) !in reuse ensures WholeChunks(rows[n].chunks) {
      if rows[n].chunks != [] {
        assert (n, rows[n].hash) in Keyed(rows);
        assert after[(n, rows[n].hash)] == rows[n].chunks;
      }
    }
    if forall n :: n in rows && rows[n].Chunked? && (n, rows[n].hash) !in reuse ==> WholeChunks(rows[n].chunks) {
      forall k | k in after ensures WholeChunks(after[k]) {
        if k !in reuse {
          assert rows[k.0].Chunked? && rows[k.0].hash == k.1 && after[k] == rows[k.0].chunks;
        }
      }
    }
  }

  /** A read of a generation still in the window adds no chunk without its vector. */
  lemma WindowReadsWell(t: Tools, w: World, id: JobId)
    requires Inv(t, w) && Whole(w) && Reading(w, id)
    requires w.workers[id].phase.todo[0].id in Window(w.jobs, w.workers[id].kb)
    ensures !ReadsNull(w, id)
  {
    assert WorkerInv(t, w, id);
    var k := w.workers[id];
    var c := k.phase.todo[0];
    assert CandidateSound(w, k.kb, c);
    assert c.id in CompletedIds(w.jobs, k.kb);
    assert w.jobs[c.id] == c.job && WholeJob(w, c.id);
  }

  // ------------------------------------------------------------------ every step

  /** Only a worker's last transaction completes a job, and it completes it under the shape
      and parser revision recorded when it started. */
  lemma OnlyFinishCompletes(t: Tools, w: World, s: Step, j: JobId)
    requires Inv(t, w) && Fits(w, s) && j in Apply(t, w, s).jobs && Apply(t, w, s).jobs[j].status == Completed
    ensures (j in w.jobs && w.jobs[j] == Apply(t, w, s).jobs[j])
         || (s.DoFinish? && s.job == j && ReadyToFinish(w, j) && Recorded(w.jobs[j]) && Recorded(Apply(t, w, s).jobs[j]))
  {
    if IsRequest(s) {
      RequestCompletesNothing(t, w, s, j);
    } else if s.DoFinish? {
      if ReadyToFinish(w, s.job) { assert WorkerInv(t, w, s.job); }
    }
  }

  lemma RequestCompletesNothing(t: Tools, w: World, s: Step, j: JobId)
    requires Fits(w, s) && IsRequest(s) && j in Apply(t, w, s).jobs && Apply(t, w, s).jobs[j].status == Completed
    ensures j in w.jobs && w.jobs[j] == Apply(t, w, s).jobs[j]
  {}

  lemma FinishIsWhole(t: Tools, w: World, id: JobId, ok: bool)
    requires Inv(t, w) && Whole(w) && ReadyToFinish(w, id)
    requires Finish(t, w, id, ok).jobs[id].status == Completed
    ensures WholeJob(Finish(t, w, id, ok), id)
  {}

  /** A window generation after a step was in the window before it, or has just completed. */
  lemma WholeWindowAfter(t: Tools, w: World, s: Step, j: JobId)
    requires Inv(t, w) && CollisionFree(t) && Fits(w, s) && Whole(w)
    requires var w' := Apply(t, w, s); j in w'.jobs && j in Window(w'.jobs, w'.jobs[j].kb)
    ensures WholeJob(Apply(t, w, s), j)
  {
    var w' := Apply(t, w, s);
    var kb := w'.jobs[j].kb;
    CollectionStands(t, w, s, j);
    OnlyFinishCompletes(t, w, s, j);
    if j in w.jobs && w.jobs[j] == w'.jobs[j] {
      WholeAsBefore(t, w, s, kb, j);
    } else {
      FinishIsWhole(t, w, j, s.embedOk);
    }
  }

  lemma CollectionStands(t: Tools, w: World, s: Step, j: JobId)
    requires Inv(t, w) && CollisionFree(t) && Fits(w, s) && j in Apply(t, w, s).jobs
    ensures Apply(t, w, s).jobs[j].kb in Apply(t, w, s).kbs
  {
    StepKeeps(t, w, s);
    assert JobInv(t, Apply(t, w, s), j);
  }

  lemma WholeAsBefore(t: Tools, w: World, s: Step, kb: KbId, j: JobId)
    requires Inv(t, w) && Fits(w, s) && Whole(w) && kb in Apply(t, w, s).kbs
    requires j in w.jobs && j in Apply(t, w, s).jobs && w.jobs[j] == Apply(t, w, s).jobs[j] && j in Window(Apply(t, w, s).jobs, kb)
    ensures WholeJob(Apply(t, w, s), j)
  {
    var w' := Apply(t, w, s);
    assert j in CompletedIds(w'.jobs, kb);
    WindowStays(t, w, s, kb);
    WindowAfter(w.jobs, w'.jobs, kb);
    assert j in CompletedIds(w.jobs, kb);
    WindowKept(t, w, s, kb, j);
    CompletedHasRows(t, w, j);
  }

  lemma CompletedHasRows(t: Tools, w: World, j: JobId)
    requires Inv(t, w) && j in w.jobs && w.jobs[j].status == Completed
    ensures j in w.docs
  {}

  lemma WholeWorkersAfter(t: Tools, w: World, s: Step)
    requires Whole(w) && ReadsWell(w, s)
    ensures var w' := Apply(t, w, s); forall id :: id in w'.workers ==> WholeWorker(w', id)
  {
    if s.DoLoadNext? {
      if Reading(w, s.job) { ReadIsWholeIff(w, s.job); }
    } else if IsWork(s) {
      WorkIsWhole(t, w, s);
    } else if !s.DoRestart? {
      OtherWorkers(t, w, s);
    }
  }

  lemma WorkIsWhole(t: Tools, w: World, s: Step)
    requires Whole(w) && IsWork(s) && !s.DoLoadNext?
    ensures var w' := Apply(t, w, s); forall id :: id in w'.workers ==> WholeWorker(w', id)
  {}

  lemma WholeKeeps(t: Tools, w: World, s: Step)
    requires Inv(t, w) && CollisionFree(t) && Fits(w, s) && Whole(w) && ReadsWell(w, s)
    ensures Whole(Apply(t, w, s))
  {
    var w' := Apply(t, w, s);
    WholeWorkersAfter(t, w, s);
    forall j | j in w'.jobs && j in Window(w'.jobs, w'.jobs[j].kb) ensures WholeJob(w', j) {
      WholeWindowAfter(t, w, s, j);
    }
  }

  /** So a read is the one step that can lose a vector, and loses one exactly in this case. */
  lemma ReadKeepsWholeIff(t: Tools, w: World, id: JobId)
    requires Inv(t, w) && CollisionFree(t) && Whole(w) && Reading(w, id)
    ensures Whole(Apply(t, w, DoLoadNext(id))) <==> !ReadsNull(w, id)
  {
    ReadIsWholeIff(w, id);
    if !ReadsNull(w, id) {
      WholeKeeps(t, w, DoLoadNext(id));
    }
  }

  // ------------------------------------------------------------------ refinement

  lemma SoundAndWholeIsFresh(t: Tools, rev: int, shape: Shape, n: Name, d: Doc, data: Data)
    requires CollisionFree(t) && DocSound(t, rev, shape, n, d) && d.hash == t.hash(data)
    requires Embeds(shape.kbType) && d.Chunked? ==> WholeChunks(d.chunks)
    ensures d == FreshDoc(t, rev, shape, n, data)
  {}

  /** A window generation holds exactly the documents, chunks and vectors that parsing,
      chunking and embedding all its staged files afresh would give. */
  lemma WindowIsFresh(t: Tools, w: World, kb: KbId, j: JobId)
    requires Inv(t, w) && CollisionFree(t) && Whole(w) && j in Window(w.jobs, kb) && Recorded(w.jobs[j])
    ensures HasDir(w, j) && j in w.docs
    ensures w.docs[j].rows == FreshRows(t, w.jobs[j].parserRev.value, ShapeOf(w.jobs[j]), DirOf(w, j).files)
  {
    assert JobInv(t, w, j) && Protected(w, j) && WholeJob(w, j);
    var rows, files, shape := w.docs[j].rows, DirOf(w, j).files, ShapeOf(w.jobs[j]);
    forall n | n in rows ensures rows[n] == FreshDoc(t, w.jobs[j].parserRev.value, shape, n, files[n]) {
      SoundAndWholeIsFresh(t, w.jobs[j].parserRev.value, shape, n, rows[n], files[n]);
    }
  }

  predicate RunReadsWell(t: Tools, w: World, steps: seq<Step>)
    decreases |steps|
  {
    steps == [] || (ReadsWell(w, steps[0]) && RunReadsWell(t, Apply(t, w, steps[0]), steps[1..]))
  }

  predicate AllRecorded(w: World) {
    forall j :: j in w.jobs && w.jobs[j].status == Completed ==> Recorded(w.jobs[j])
  }

  lemma RecordedKeeps(t: Tools, w: World, s: Step)
    requires Inv(t, w) && Fits(w, s) && AllRecorded(w)
    ensures AllRecorded(Apply(t, w, s))
  {
    var w' := Apply(t, w, s);
    forall j | j in w'.jobs && w'.jobs[j].status == Completed ensures Recorded(w'.jobs[j]) {
      OnlyFinishCompletes(t, w, s, j);
    }
  }

  lemma {:induction false} RunIsRecorded(t: Tools, w: World, steps: seq<Step>)
    requires Inv(t, w) && CollisionFree(t) && AllRecorded(w) && RunFits(t, w, steps)
    ensures AllRecorded(Run(t, w, steps))
    decreases |steps|
  {
    if steps != [] {
      StepKeeps(t, w, steps[0]);
      RecordedKeeps(t, w, steps[0]);
      RunIsRecorded(t, Apply(t, w, steps[0]), steps[1..]);
    }
  }

  lemma {:induction false} RunIsWhole(t: Tools, w: World, steps: seq<Step>)
    requires Inv(t, w) && CollisionFree(t) && Whole(w) && RunFits(t, w, steps) && RunReadsWell(t, w, steps)
    ensures Inv(t, Run(t, w, steps)) && Whole(Run(t, w, steps))
    decreases |steps|
  {
    if steps != [] {
      StepKeeps(t, w, steps[0]);
      WholeKeeps(t, w, steps[0]);
      RunIsWhole(t, Apply(t, w, steps[0]), steps[1..]);
    }
  }

  /** Incremental ingestion refines the from-scratch parse, over every history in which no
      worker reads a generation after a prune has emptied its vectors. */
  lemma IncrementalIsFromScratch(t: Tools, steps: seq<Step>, kb: KbId, j: JobId)
    requires CollisionFree(t) && RunFits(t, EMPTY, steps) && RunReadsWell(t, EMPTY, steps)
    requires j in Window(Run(t, EMPTY, steps).jobs, kb)
    ensures var w := Run(t, EMPTY, steps); var job := w.jobs[j];
      && Recorded(job) && HasDir(w, j) && j in w.docs
      && w.docs[j].rows == FreshRows(t, job.parserRev.value, ShapeOf(job), DirOf(w, j).files)
      && job.succeeded + job.failed == job.fileCount == |DirOf(w, j).files|
  {
    RunIsWhole(t, EMPTY, steps);
    RunIsRecorded(t, EMPTY, steps);
    var w := Run(t, EMPTY, steps);
    WindowIsFresh(t, w, kb, j);
    CountersAddUp(t, w, kb, j);
  }

  lemma CountersAddUp(t: Tools, w: World, kb: KbId, j: JobId)
    requires Inv(t, w) && j in Window(w.jobs, kb) && HasDir(w, j)
    ensures w.jobs[j].succeeded + w.jobs[j].failed == w.jobs[j].fileCount == |DirOf(w, j).files|
  {}

  /** Text, page, heading and model need no such condition. */
  predicate SamePieces(d: Doc, f: Doc) {
    && d.hash == f.hash && d.Chunked? == f.Chunked?
    && (d.Chunked? ==>
          && |d.chunks| == |f.chunks|
          && forall i :: 0 <= i < |d.chunks| ==> d.chunks[i].piece == f.chunks[i].piece && d.chunks[i].model == f.chunks[i].model)
  }

  lemma IncrementalTextIsFromScratch(t: Tools, steps: seq<Step>, kb: KbId, j: JobId)
    requires CollisionFree(t) && RunFits(t, EMPTY, steps) && j in Window(Run(t, EMPTY, steps).jobs, kb)
    ensures var w := Run(t, EMPTY, steps); var job := w.jobs[j];
      && Recorded(job) && HasDir(w, j) && j in w.docs && w.docs[j].rows.Keys == DirOf(w, j).files.Keys
      && forall n :: n in w.docs[j].rows ==>
           SamePieces(w.docs[j].rows[n], FreshDoc(t, job.parserRev.value, ShapeOf(job), n, DirOf(w, j).files[n]))
  {
    RunKeeps(t, EMPTY, steps);
    RunIsRecorded(t, EMPTY, steps);
    TextIsFresh(t, Run(t, EMPTY, steps), kb, j);
  }

  lemma TextIsFresh(t: Tools, w: World, kb: KbId, j: JobId)
    requires CollisionFree(t) && Inv(t, w) && j in Window(w.jobs, kb) && Recorded(w.jobs[j])
    ensures var job := w.jobs[j];
      && HasDir(w, j) && j in w.docs && w.docs[j].rows.Keys == DirOf(w, j).files.Keys
      && forall n :: n in w.docs[j].rows ==>
           SamePieces(w.docs[j].rows[n], FreshDoc(t, job.parserRev.value, ShapeOf(job), n, DirOf(w, j).files[n]))
  {}
}
