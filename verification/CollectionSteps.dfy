/** Every step keeps the invariant of `CollectionInvariant`. */
module CollectionSteps {
  import opened Basics
  import opened Ingestion
  import opened Collections
  import opened CollectionInvariant

  // ------------------------------------------------------------------ frames

  /** A candidate survives any step that keeps completed rows as they are. */
  lemma CandidateKeeps(w: World, w': World, kb: KbId, c: Candidate)
    requires CandidateSound(w, kb, c)
    requires forall j :: j in w.jobs && w.jobs[j].status == Completed && j in w'.jobs ==> w'.jobs[j] == w.jobs[j]
    requires forall j :: j in w'.jobs && j !in w.jobs ==> forall k :: k in w.jobs ==> k < j
    requires CompletedIds(w.jobs, kb) <= CompletedIds(w'.jobs, kb)
    ensures CandidateSound(w', kb, c)
  {}

  /** With no job gone, a job that is still the newest was the newest. */
  lemma NewestKeeps(w: World, w': World, j: JobId)
    requires j in w.jobs && j in w'.jobs && w'.jobs[j].kb == w.jobs[j].kb
    requires forall k :: k in w.jobs ==> k in w'.jobs && w'.jobs[k].kb == w.jobs[k].kb
    ensures NewestOfItsCollection(w', j) ==> NewestOfItsCollection(w, j)
  {}

  // ------------------------------------------------------------------ new jobs

  lemma WithJobWindows(w: World, id: JobId, kb: KbId, v: Version, shape: Shape, files: map<Name, Data>, k: KbId)
    requires FreshIds(w, id, v)
    ensures CompletedIds(WithJob(w, id, kb, v, shape, files).jobs, k) == CompletedIds(w.jobs, k)
    ensures Window(WithJob(w, id, kb, v, shape, files).jobs, k) == Window(w.jobs, k)
  {
    assert CompletedIds(WithJob(w, id, kb, v, shape, files).jobs, k) == CompletedIds(w.jobs, k);
  }

  lemma WithJobOther(t: Tools, w: World, id: JobId, kb: KbId, v: Version, shape: Shape, files: map<Name, Data>, j: JobId)
    requires j in w.jobs && JobInv(t, w, j) && FreshIds(w, id, v) && kb in w.kbs
    ensures JobInv(t, WithJob(w, id, kb, v, shape, files), j)
  {
    var w' := WithJob(w, id, kb, v, shape, files);
    WithJobWindows(w, id, kb, v, shape, files, w.jobs[j].kb);
    NewestKeeps(w, w', j);
    UntouchedKeeps(t, w, w', j);
  }

  lemma WithJobWorker(t: Tools, w: World, id: JobId, kb: KbId, v: Version, shape: Shape, files: map<Name, Data>, i: JobId)
    requires i in w.workers && WorkerInv(t, w, i) && FreshIds(w, id, v)
    ensures WorkerInv(t, WithJob(w, id, kb, v, shape, files), i)
  {
    var w', k := WithJob(w, id, kb, v, shape, files), w.workers[i].kb;
    WithJobWindows(w, id, kb, v, shape, files, k);
    forall c | CandidateSound(w, k, c) ensures CandidateSound(w', k, c) {
      CandidateKeeps(w, w', k, c);
    }
    WorkerKeeps(t, w, w', i);
  }

  lemma WithJobKeeps(t: Tools, w: World, id: JobId, kb: KbId, v: Version, shape: Shape, files: map<Name, Data>)
    requires Core(t, w) && FreshIds(w, id, v) && kb in w.kbs
    ensures Core(t, WithJob(w, id, kb, v, shape, files))
  {
    var w' := WithJob(w, id, kb, v, shape, files);
    forall j | j in w'.jobs ensures JobInv(t, w', j) {
      if j != id { WithJobOther(t, w, id, kb, v, shape, files, j); }
    }
    forall i | i in w'.workers ensures WorkerInv(t, w', i) {
      WithJobWorker(t, w, id, kb, v, shape, files, i);
    }
  }

  lemma ConfigKeeps(t: Tools, w: World, kb: KbId, c: Config)
    requires Core(t, w)
    ensures Core(t, w.(kbs := w.kbs[kb := c]))
  {}

  lemma UploadKeeps(t: Tools, w: World, r: Request)
    requires Core(t, w) && FreshIds(w, r.job, r.version) && Upload(t, w, r).Accepted?
    ensures Core(t, Upload(t, w, r).world)
  {
    var shape := RequestShape(w, r);
    var c := Config(shape.kbType, shape.model, r.size, r.overlap);
    ConfigKeeps(t, w, r.kb, c);
    WithJobKeeps(t, w.(kbs := w.kbs[r.kb := c]), r.job, r.kb, r.version, shape, AddCarried(t, w, r) + r.files);
  }

  lemma RemovedWorld(t: Tools, w: World, kb: KbId, file: Name, id: JobId, v: Version)
    requires RemoveDocument(t, w, kb, file, id, v).Accepted?
    ensures kb in w.kbs && Live(w.jobs, kb).Some?
    ensures var live := w.jobs[Live(w.jobs, kb).value];
      RemoveDocument(t, w, kb, file, id, v).world
        == WithJob(w, id, kb, v, JobShape(live, w.kbs[kb]), Carried(t, DirFiles(w, live.version), {file}, true))
  {}

  lemma RemoveKeeps(t: Tools, w: World, kb: KbId, file: Name, id: JobId, v: Version)
    requires Core(t, w) && FreshIds(w, id, v) && RemoveDocument(t, w, kb, file, id, v).Accepted?
    ensures Core(t, RemoveDocument(t, w, kb, file, id, v).world)
  {
    RemovedWorld(t, w, kb, file, id, v);
    var live := w.jobs[Live(w.jobs, kb).value];
    WithJobKeeps(t, w, id, kb, v, JobShape(live, w.kbs[kb]), Carried(t, DirFiles(w, live.version), {file}, true));
  }

  lemma RestoreKeeps(t: Tools, w: World, kb: KbId, id: JobId, v: Version)
    requires Core(t, w) && FreshIds(w, id, v) && Restore(t, w, kb, id, v).Accepted?
    ensures Core(t, Restore(t, w, kb, id, v).world)
  {
    var previous := Previous(w.jobs, kb).value;
    WithJobKeeps(t, w, id, kb, v, JobShape(w.jobs[previous], w.kbs[kb]), Carried(t, DirFiles(w, w.jobs[previous].version), {}, false));
  }

  // ------------------------------------------------------------------ one job's row

  /** `w'` differs from `w` in one uncompleted job's row, its documents and the workers;
      the row stays in its collection and directory. */
  ghost predicate OneRow(w: World, w': World, id: JobId) {
    && id in w.jobs && w.jobs[id].status != Completed
    && w'.jobs.Keys == w.jobs.Keys
    && w'.jobs[id].kb == w.jobs[id].kb && w'.jobs[id].version == w.jobs[id].version
    && (forall j :: j in w.jobs && j != id ==> w'.jobs[j] == w.jobs[j])
    && (forall j :: j != id ==> (j in w'.docs <==> j in w.docs) && (j in w.docs ==> w'.docs[j] == w.docs[j]))
    && w'.kbs == w.kbs && w'.dirs == w.dirs && w'.refs == w.refs && w'.rev == w.rev
  }

  /** The window gains at most the changed job. */
  lemma OneRowWindows(w: World, w': World, id: JobId, kb: KbId)
    requires OneRow(w, w', id)
    ensures CompletedIds(w.jobs, kb) <= CompletedIds(w'.jobs, kb) <= CompletedIds(w.jobs, kb) + {id}
    ensures Window(w'.jobs, kb) <= Window(w.jobs, kb) + {id}
  {
    forall j | j in CompletedIds(w.jobs, kb) ensures j in CompletedIds(w'.jobs, kb) {
      assert w'.jobs[j] == w.jobs[j];
    }
    WindowAfter(w.jobs, w'.jobs, kb);
    forall j | j in Window(w'.jobs, kb) && j != id ensures j in Window(w.jobs, kb) {
      assert j in CompletedIds(w'.jobs, kb);
    }
  }

  lemma OneRowOther(t: Tools, w: World, w': World, id: JobId, j: JobId)
    requires OneRow(w, w', id) && j in w.jobs && j != id && JobInv(t, w, j)
    ensures JobInv(t, w', j)
  {
    OneRowWindows(w, w', id, w.jobs[j].kb);
    NewestKeeps(w, w', j);
    UntouchedKeeps(t, w, w', j);
  }

  lemma OneRowWorker(t: Tools, w: World, w': World, id: JobId, i: JobId)
    requires OneRow(w, w', id) && i in w.workers && i in w'.workers && w'.workers[i] == w.workers[i] && i != id && WorkerInv(t, w, i)
    ensures WorkerInv(t, w', i)
  {
    var k := w.workers[i].kb;
    OneRowWindows(w, w', id, k);
    forall c | CandidateSound(w, k, c) ensures CandidateSound(w', k, c) {
      CandidateKeeps(w, w', k, c);
    }
    WorkerKeeps(t, w, w', i);
  }

  /** So only the changed job and its own worker remain to be checked. */
  lemma OneRowKeeps(t: Tools, w: World, w': World, id: JobId)
    requires Core(t, w) && OneRow(w, w', id)
    requires forall i :: i in w'.workers && i != id ==> i in w.workers && w'.workers[i] == w.workers[i]
    requires id in w'.workers ==> WorkerInv(t, w', id)
    requires JobInv(t, w', id) && w'.docs.Keys <= w'.jobs.Keys
    ensures Core(t, w')
  {
    forall j | j in w'.jobs ensures JobInv(t, w', j) {
      if j != id { OneRowOther(t, w, w', id, j); }
    }
    forall i | i in w'.workers ensures WorkerInv(t, w', i) {
      if i != id { OneRowWorker(t, w, w', id, i); }
    }
  }

  lemma RetryKeeps(t: Tools, w: World, kb: KbId, id: JobId)
    requires Core(t, w) && Retry(w, kb, id).Accepted?
    ensures Core(t, Retry(w, kb, id).world)
  {
    var w' := Retry(w, kb, id).world;
    assert JobInv(t, w, id);
    assert forall i :: i in w.workers ==> WorkerInv(t, w, i);
    OneRowKeeps(t, w, w', id);
  }

  /** A job that leaves the queue without completing: a refused submission, a failed
      embedding call, the worker's catch-all. */
  lemma FailKeeps(t: Tools, w: World, id: JobId)
    requires Core(t, w) && id in w.jobs && InFlight(w.jobs[id])
    ensures Core(t, w.(jobs := w.jobs[id := w.jobs[id].(status := FailedJob)], workers := w.workers - {id}))
  {
    var w' := w.(jobs := w.jobs[id := w.jobs[id].(status := FailedJob)], workers := w.workers - {id});
    assert JobInv(t, w, id) && Protected(w, id);
    OneRowKeeps(t, w, w', id);
  }

  // ------------------------------------------------------------------ workers

  lemma DispatchKeeps(t: Tools, w: World, id: JobId)
    requires Core(t, w)
    ensures Core(t, Dispatch(w, id))
  {}

  lemma DispatchFailedKeeps(t: Tools, w: World, id: JobId)
    requires Core(t, w)
    ensures Core(t, DispatchFailed(w, id))
  {
    if id in w.jobs && w.jobs[id].status == Queued && id !in w.workers {
      assert w.workers - {id} == w.workers;
      FailKeeps(t, w, id);
    }
  }

  lemma AbortKeeps(t: Tools, w: World, id: JobId)
    requires Core(t, w)
    ensures Core(t, Abort(w, id))
  {
    if id in w.workers && id in w.jobs {
      assert WorkerInv(t, w, id);
      FailKeeps(t, w, id);
    }
  }

  lemma StartKeeps(t: Tools, w: World, id: JobId)
    requires Core(t, w)
    ensures Core(t, Start(w, id))
  {
    var w' := Start(w, id);
    if w' != w {
      assert WorkerInv(t, w, id) && JobInv(t, w, id);
      OneRowKeeps(t, w, w', id);
    }
  }

  lemma LoadCandidatesKeeps(t: Tools, w: World, id: JobId)
    requires Core(t, w)
    ensures Core(t, LoadCandidates(w, id))
  {
    var w' := LoadCandidates(w, id);
    if id in w.workers && w.workers[id].phase == Started {
      assert WorkerInv(t, w, id) && JobInv(t, w, id);
      UntouchedKeeps(t, w, w', id);
      var k := w.workers[id].kb;
      forall c | c in Candidates(w, id, k) ensures CandidateSound(w', k, c) {
        assert c.id in CompletedIds(w'.jobs, k);
      }
      OneRowKeeps(t, w, w', id);
    }
  }

  /** What a carryable candidate contributes is sound for the job that reads it. */
  lemma KeyedSound(t: Tools, rev: int, shape: Shape, rows: map<Name, Doc>)
    requires RowsSound(t, rev, shape, rows)
    ensures ReuseSound(t, rev, shape, Keyed(rows))
  {}

  lemma CandidateRowsSound(t: Tools, w: World, kb: KbId, c: Candidate, shape: Shape)
    requires Core(t, w) && CandidateSound(w, kb, c) && Carryable(c.job, shape, w.rev) && c.id in w.docs
    ensures RowsSound(t, w.rev, shape, w.docs[c.id].rows)
  {}

  lemma LoadNextKeeps(t: Tools, w: World, id: JobId)
    requires Core(t, w)
    ensures Core(t, LoadNext(w, id))
  {
    var w' := LoadNext(w, id);
    if id in w.workers && w.workers[id].phase.Loading? && w.workers[id].phase.todo != [] {
      assert WorkerInv(t, w, id) && JobInv(t, w, id);
      UntouchedKeeps(t, w, w', id);
      LoadNextWorker(t, w, id);
      OneRowKeeps(t, w, w', id);
    }
  }

  lemma LoadNextWorker(t: Tools, w: World, id: JobId)
    requires Core(t, w) && id in w.workers && WorkerInv(t, w, id) && w.workers[id].phase.Loading? && w.workers[id].phase.todo != []
    ensures WorkerInv(t, LoadNext(w, id), id)
  {
    var k := w.workers[id];
    var c := k.phase.todo[0];
    var rows := if Carryable(c.job, k.shape, w.rev) && c.id in w.docs then w.docs[c.id].rows else map[];
    assert RowsSound(t, w.rev, k.shape, rows) by {
      if Carryable(c.job, k.shape, w.rev) && c.id in w.docs { CandidateRowsSound(t, w, k.kb, c, k.shape); }
    }
    KeyedSound(t, w.rev, k.shape, rows);
    AddedSound(t, w.rev, k.shape, Keyed(rows), k.phase.reuse);
    RestSound(w, LoadNext(w, id), k.kb, k.phase.todo);
  }

  lemma AddedSound(t: Tools, rev: int, shape: Shape, a: Reuse, b: Reuse)
    requires ReuseSound(t, rev, shape, a) && ReuseSound(t, rev, shape, b)
    ensures ReuseSound(t, rev, shape, a + b)
  {}

  lemma RestSound(w: World, w': World, kb: KbId, todo: seq<Candidate>)
    requires todo != [] && w'.jobs == w.jobs && forall c :: c in todo ==> CandidateSound(w, kb, c)
    ensures forall c :: c in todo[1..] ==> CandidateSound(w', kb, c)
  {
    forall c | c in todo[1..] ensures CandidateSound(w', kb, c) { CandidateKeeps(w, w', kb, c); }
  }

  // ------------------------------------------------------------------ finishing

  lemma RowsAreSound(t: Tools, rev: int, shape: Shape, reuse: Reuse, files: map<Name, Data>)
    requires CollisionFree(t) && ReuseSound(t, rev, shape, reuse)
    ensures RowsSound(t, rev, shape, Rows(t, rev, shape, reuse, files))
    ensures Covers(t, Rows(t, rev, shape, reuse, files), files)
  {}

  lemma {:induction false} Partition(rows: map<Name, Doc>)
    ensures |Readable(rows)| + |Unreadable(rows)| == |rows|
  {
    assert Readable(rows) + Unreadable(rows) == rows.Keys;
    assert Readable(rows) !! Unreadable(rows);
  }

  lemma FinishKeeps(t: Tools, w: World, id: JobId, embedOk: bool)
    requires Core(t, w) && CollisionFree(t)
    ensures Core(t, Finish(t, w, id, embedOk))
  {
    if ReadyToFinish(w, id) {
      assert WorkerInv(t, w, id) && JobInv(t, w, id) && Protected(w, id);
      var k := w.workers[id];
      var files := DirFiles(w, k.version);
      if Outcomes(t, w.rev, k.shape, k.phase.reuse, files, embedOk).EmbeddingFailed? {
        FailKeeps(t, w, id);
      } else {
        WrittenKeeps(t, w, id, embedOk);
      }
    }
  }

  lemma WrittenKeeps(t: Tools, w: World, id: JobId, embedOk: bool)
    requires Core(t, w) && CollisionFree(t) && ReadyToFinish(w, id) && WorkerInv(t, w, id) && JobInv(t, w, id) && Protected(w, id)
    requires var k := w.workers[id]; Outcomes(t, w.rev, k.shape, k.phase.reuse, DirFiles(w, k.version), embedOk).Written?
    ensures Core(t, Finish(t, w, id, embedOk))
  {
    var k := w.workers[id];
    var files := DirFiles(w, k.version);
    var rows := Rows(t, w.rev, k.shape, k.phase.reuse, files);
    RowsAreSound(t, w.rev, k.shape, k.phase.reuse, files);
    Partition(rows);
    assert rows.Keys == files.Keys;
    assert |rows| == |rows.Keys| == |files.Keys| == |files|;
    var w' := Finish(t, w, id, embedOk);
    assert w'.docs[id] == RowSet(k.kb, rows);
    WrittenJob(t, w, w', id, rows);
    OneRowKeeps(t, w, w', id);
  }

  /** The written job's own row. */
  lemma WrittenJob(t: Tools, w: World, w': World, id: JobId, rows: map<Name, Doc>)
    requires id in w.jobs && id in w'.jobs && JobInv(t, w, id) && HasDir(w, id) && w'.dirs == w.dirs && w'.kbs == w.kbs
    requires id in w'.docs && w'.docs[id] == RowSet(w.jobs[id].kb, rows) && Recorded(w.jobs[id])
    requires RowsSound(t, w.jobs[id].parserRev.value, ShapeOf(w.jobs[id]), rows) && Covers(t, rows, DirOf(w, id).files)
    requires var done := Readable(rows) != {};
      w'.jobs[id] == w.jobs[id].(status := if done then Completed else FailedJob, succeeded := |Readable(rows)|, failed := |Unreadable(rows)|)
    requires |Readable(rows)| + |Unreadable(rows)| == w.jobs[id].fileCount
    ensures JobInv(t, w', id)
  {}

  // ------------------------------------------------------------------ deletion

  lemma DeleteOther(t: Tools, w: World, kb: KbId, used: bool, removed: bool, j: JobId)
    requires Core(t, w) && Delete(w, kb, used, removed).Accepted? && j in w.jobs && w.jobs[j].kb != kb
    ensures JobInv(t, Delete(w, kb, used, removed).world, j)
  {
    var w', k := Delete(w, kb, used, removed).world, w.jobs[j].kb;
    assert JobInv(t, w, j);
    assert CompletedIds(w'.jobs, k) == CompletedIds(w.jobs, k);
    forall i | i in w.jobs && w.jobs[i].kb == k ensures i in w'.jobs && w'.jobs[i].kb == k {}
    assert NewestOfItsCollection(w', j) ==> NewestOfItsCollection(w, j);
    UntouchedKeeps(t, w, w', j);
  }

  lemma DeleteWorker(t: Tools, w: World, kb: KbId, used: bool, removed: bool, i: JobId)
    requires Core(t, w) && Delete(w, kb, used, removed).Accepted? && i in w.workers
    ensures WorkerInv(t, Delete(w, kb, used, removed).world, i)
  {
    var w', k := Delete(w, kb, used, removed).world, w.workers[i].kb;
    assert WorkerInv(t, w, i);
    assert k != kb;
    assert CompletedIds(w'.jobs, k) == CompletedIds(w.jobs, k);
    forall c | CandidateSound(w, k, c) ensures CandidateSound(w', k, c) {
      var x :| x in CompletedIds(w.jobs, k) && x >= c.id;
      assert x in CompletedIds(w'.jobs, k);
    }
    WorkerKeeps(t, w, w', i);
  }

  lemma DeleteKeeps(t: Tools, w: World, kb: KbId, used: bool, removed: bool)
    requires Core(t, w) && Delete(w, kb, used, removed).Accepted?
    ensures Core(t, Delete(w, kb, used, removed).world)
  {
    var w' := Delete(w, kb, used, removed).world;
    forall j | j in w'.jobs ensures JobInv(t, w', j) { DeleteOther(t, w, kb, used, removed, j); }
    forall i | i in w'.workers ensures WorkerInv(t, w', i) { DeleteWorker(t, w, kb, used, removed, i); }
    forall j | j in w'.docs ensures j in w'.jobs {
      assert JobInv(t, w, j);
    }
  }

  // ------------------------------------------------------------------ pruning

  /** Listed generations are completed, and their directories and rows needed by nothing. */
  ghost predicate Prunable(w: World, ids: set<JobId>, versions: set<Version>) {
    && (forall j :: j in ids && j in w.jobs ==> w.jobs[j].status == Completed && w.jobs[j].version in versions)
    && (forall j :: j in w.jobs && w.jobs[j].version in versions ==> !Protected(w, j))
  }

  /** Pruning removes no window generation, so the window stays put. */
  lemma PruneWindows(w: World, ids: set<JobId>, cited: set<JobId>, versions: set<Version>, k: KbId)
    requires Prunable(w, ids, versions)
    ensures var w' := PruneRows(w, ids, cited, versions);
      Window(w.jobs, k) <= CompletedIds(w'.jobs, k) <= CompletedIds(w.jobs, k) && Window(w'.jobs, k) <= Window(w.jobs, k)
  {
    var w' := PruneRows(w, ids, cited, versions);
    assert forall j :: j in w'.jobs ==> j in w.jobs && w'.jobs[j] == w.jobs[j];
    forall j | j in Window(w.jobs, k) ensures j in CompletedIds(w'.jobs, k) {
      assert j in CompletedIds(w.jobs, k) && Protected(w, j);
    }
    WindowAfter(w.jobs, w'.jobs, k);
    assert forall j :: j in Window(w'.jobs, k) ==> j in CompletedIds(w'.jobs, k);
  }

  /** A job that becomes its collection's newest was the newest: the live one outlives every
      generation pruned. */
  lemma PruneNewest(w: World, ids: set<JobId>, cited: set<JobId>, versions: set<Version>, j: JobId)
    requires Prunable(w, ids, versions) && j in w.jobs && j in PruneRows(w, ids, cited, versions).jobs
    ensures NewestOfItsCollection(PruneRows(w, ids, cited, versions), j) ==> NewestOfItsCollection(w, j)
  {
    var w', kb := PruneRows(w, ids, cited, versions), w.jobs[j].kb;
    PruneWindows(w, ids, cited, versions, kb);
    forall k | NewestOfItsCollection(w', j) && k in w.jobs && w.jobs[k].kb == kb ensures k <= j {
      if k !in w'.jobs {
        assert k in CompletedIds(w.jobs, kb);
        var live := Live(w.jobs, kb).value;
        assert live in CompletedIds(w'.jobs, kb) && k <= live;
      } else {
        assert w'.jobs[k].kb == w'.jobs[j].kb;
      }
    }
  }

  lemma PruneJob(t: Tools, w: World, ids: set<JobId>, cited: set<JobId>, versions: set<Version>, j: JobId)
    requires Core(t, w) && Prunable(w, ids, versions) && cited <= ids && j in PruneRows(w, ids, cited, versions).jobs
    ensures JobInv(t, PruneRows(w, ids, cited, versions), j)
  {
    var w', job := PruneRows(w, ids, cited, versions), w.jobs[j];
    assert JobInv(t, w, j);
    PruneWindows(w, ids, cited, versions, job.kb);
    PruneNewest(w, ids, cited, versions, j);
    if j in ids {
      NullRowsSound(t, w.docs[j], job);
    } else {
      UntouchedKeeps(t, w, w', j);
    }
  }

  lemma NullRowsSound(t: Tools, s: RowSet, job: Job)
    ensures Readable(NullRows(s).rows) == Readable(s.rows)
    ensures Recorded(job) && RowsSound(t, job.parserRev.value, ShapeOf(job), s.rows)
      ==> RowsSound(t, job.parserRev.value, ShapeOf(job), NullRows(s).rows)
  {}

  lemma PruneCandidate(w: World, ids: set<JobId>, cited: set<JobId>, versions: set<Version>, k: KbId, c: Candidate)
    requires Prunable(w, ids, versions) && CandidateSound(w, k, c)
    ensures CandidateSound(PruneRows(w, ids, cited, versions), k, c)
  {
    var x :| x in CompletedIds(w.jobs, k) && x >= c.id;
    PruneWindows(w, ids, cited, versions, k);
    var live := Live(w.jobs, k).value;
    assert live in CompletedIds(PruneRows(w, ids, cited, versions).jobs, k) && live >= c.id;
  }

  lemma PruneRowsKeep(t: Tools, w: World, ids: set<JobId>, cited: set<JobId>, versions: set<Version>)
    requires Core(t, w) && Prunable(w, ids, versions) && cited <= ids
    ensures Core(t, PruneRows(w, ids, cited, versions))
  {
    var w' := PruneRows(w, ids, cited, versions);
    forall j | j in w'.jobs ensures JobInv(t, w', j) { PruneJob(t, w, ids, cited, versions, j); }
    forall i | i in w'.workers ensures WorkerInv(t, w', i) {
      assert WorkerInv(t, w, i);
      forall c | CandidateSound(w, w.workers[i].kb, c) ensures CandidateSound(w', w.workers[i].kb, c) {
        PruneCandidate(w, ids, cited, versions, w.workers[i].kb, c);
      }
      WorkerKeeps(t, w, w', i);
    }
  }

  /** What a prune in flight holds may be pruned. */
  lemma HeldIsPrunable(w: World, p: Prune)
    requires PruneInv(w, p)
    ensures Prunable(w, if p.OldPrune? then p.ids.Keys else {}, Doomed(p))
  {}

  lemma DropDirKeeps(t: Tools, w: World, p: PruneId, v: Version)
    requires Core(t, w) && PrunesInv(w)
    ensures Core(t, DropDir(w, p, v))
  {
    var w' := DropDir(w, p, v);
    if w' != w {
      assert PruneInv(w, w.prunes[p]);
      forall j | j in w'.jobs ensures JobInv(t, w', j) { UntouchedKeeps(t, w, w', j); }
      SameJobsWorkers(t, w, w');
    }
  }

  lemma CommitPruneKeeps(t: Tools, w: World, p: PruneId)
    requires Core(t, w) && PrunesInv(w)
    ensures Core(t, CommitPrune(t, w, p))
  {
    if HasLooked(w, p) {
      var k, w1 := w.prunes[p], w.(prunes := w.prunes - {p});
      assert PruneInv(w, k);
      SameTablesKeep(t, w, w1);
      HeldIsPrunable(w1, k);
      PruneRowsKeep(t, w1, k.ids.Keys, k.cited.value, Doomed(k));
    }
  }

  lemma SameJobsWorkers(t: Tools, w: World, w': World)
    requires WorkersInv(t, w) && w'.jobs == w.jobs && w'.workers == w.workers && w'.rev == w.rev
    ensures WorkersInv(t, w')
  {}

  /** Listing, looking up, checking, recording and releasing touch no other table. */
  lemma SameTablesKeep(t: Tools, w: World, w': World)
    requires Core(t, w) && w' == w.(refs := w'.refs, prunes := w'.prunes, checks := w'.checks)
    ensures Core(t, w')
  {
    forall j | j in w'.jobs ensures JobInv(t, w', j) {
      NewestKeeps(w, w', j);
      UntouchedKeeps(t, w, w', j);
    }
    SameJobsWorkers(t, w, w');
  }

  lemma RestartWindows(w: World, rev: int, k: KbId)
    ensures CompletedIds(Restart(w, rev).jobs, k) == CompletedIds(w.jobs, k)
  {
    var w' := Restart(w, rev);
    forall j ensures j in CompletedIds(w'.jobs, k) <==> j in CompletedIds(w.jobs, k) {
      assert j in w'.jobs <==> j in w.jobs;
    }
  }

  lemma RestartJob(t: Tools, w: World, rev: int, j: JobId)
    requires j in w.jobs && JobInv(t, w, j)
    ensures JobInv(t, Restart(w, rev), j)
  {
    var w' := Restart(w, rev);
    RestartWindows(w, rev, w.jobs[j].kb);
    NewestKeeps(w, w', j);
    if !InFlight(w.jobs[j]) {
      UntouchedKeeps(t, w, w', j);
    } else {
      assert Protected(w, j) && w'.jobs[j].status == FailedJob;
    }
  }

  lemma RestartKeeps(t: Tools, w: World, rev: int)
    requires Core(t, w)
    ensures Core(t, Restart(w, rev))
  {
    forall j | j in Restart(w, rev).jobs ensures JobInv(t, Restart(w, rev), j) { RestartJob(t, w, rev, j); }
  }

  // ------------------------------------------------------------------ what prunes in flight hold

  /** What nothing needs stays so, row and all, and a new job takes no id or name held. */
  ghost predicate Gentle(w: World, w': World) {
    && (forall j :: j in w.jobs && j in w'.jobs ==> w'.jobs[j].version == w.jobs[j].version)
    && (forall j :: j in w.jobs && j in w'.jobs && !Protected(w, j) ==> w'.jobs[j] == w.jobs[j] && !Protected(w', j))
    && (forall j, p :: j in w'.jobs && j !in w.jobs && p in w.prunes ==>
          !Holds(w.prunes[p], j) && w'.jobs[j].version !in Doomed(w.prunes[p]))
  }

  lemma HeldKeeps(w: World, w': World, p: Prune)
    requires Gentle(w, w') && PruneInv(w, p) && exists i :: i in w.prunes && w.prunes[i] == p
    ensures PruneInv(w', p)
  {
    forall j | j in w'.jobs && w'.jobs[j].version in Doomed(p) ensures !Protected(w', j) { assert j in w.jobs; }
  }

  lemma PrunesKeep(w: World, w': World)
    requires PrunesInv(w) && Gentle(w, w') && forall p :: p in w'.prunes ==> p in w.prunes && w'.prunes[p] == w.prunes[p]
    ensures PrunesInv(w')
  {
    forall p | p in w'.prunes ensures PruneInv(w', w'.prunes[p]) { HeldKeeps(w, w', w.prunes[p]); }
  }

  /** A generation outside the window stays outside while the window's own stay completed. */
  lemma StaysUnprotected(w: World, w': World, j: JobId)
    requires j in w.jobs && j in w'.jobs && w'.jobs[j] == w.jobs[j] && !Protected(w, j)
    requires Window(w.jobs, w.jobs[j].kb) <= CompletedIds(w'.jobs, w.jobs[j].kb)
    requires NewestOfItsCollection(w', j) ==> NewestOfItsCollection(w, j)
    ensures !Protected(w', j)
  {
    WindowAfter(w.jobs, w'.jobs, w.jobs[j].kb);
    if w.jobs[j].status == Completed { assert j in CompletedIds(w.jobs, w.jobs[j].kb); }
    WindowIsTopTwo(w'.jobs, w.jobs[j].kb, j);
  }

  lemma WithJobGentle(w: World, id: JobId, kb: KbId, v: Version, shape: Shape, files: map<Name, Data>)
    requires FreshIds(w, id, v)
    ensures Gentle(w, WithJob(w, id, kb, v, shape, files))
  {
    var w' := WithJob(w, id, kb, v, shape, files);
    forall j | j in w.jobs && !Protected(w, j) ensures !Protected(w', j) {
      WithJobWindows(w, id, kb, v, shape, files, w.jobs[j].kb);
      WindowIsTopTwo(w.jobs, w.jobs[j].kb, j);
      NewestKeeps(w, w', j);
      StaysUnprotected(w, w', j);
    }
  }

  lemma OneRowGentle(w: World, w': World, id: JobId)
    requires OneRow(w, w', id) && Protected(w, id)
    ensures Gentle(w, w')
  {
    forall j | j in w.jobs && !Protected(w, j) ensures !Protected(w', j) {
      OneRowWindows(w, w', id, w.jobs[j].kb);
      NewestKeeps(w, w', j);
      StaysUnprotected(w, w', j);
    }
  }

  lemma DeleteGentle(w: World, kb: KbId, used: bool, removed: bool)
    requires Delete(w, kb, used, removed).Accepted?
    ensures Gentle(w, Delete(w, kb, used, removed).world)
  {
    var w' := Delete(w, kb, used, removed).world;
    forall j | j in w'.jobs && !Protected(w, j) ensures !Protected(w', j) {
      var k := w.jobs[j].kb;
      assert CompletedIds(w'.jobs, k) == CompletedIds(w.jobs, k);
      forall i | i in w.jobs && w.jobs[i].kb == k ensures i in w'.jobs && w'.jobs[i].kb == k {}
      WindowIsTopTwo(w.jobs, k, j);
      StaysUnprotected(w, w', j);
    }
  }

  lemma PruneGentle(w: World, ids: set<JobId>, cited: set<JobId>, versions: set<Version>)
    requires Prunable(w, ids, versions)
    ensures Gentle(w, PruneRows(w, ids, cited, versions))
  {
    var w' := PruneRows(w, ids, cited, versions);
    forall j | j in w'.jobs && !Protected(w, j) ensures !Protected(w', j) {
      PruneWindows(w, ids, cited, versions, w.jobs[j].kb);
      PruneNewest(w, ids, cited, versions, j);
      StaysUnprotected(w, w', j);
    }
  }

  /** A listing holds what nothing needs. */
  lemma ListOldHolds(t: Tools, w: World, p: PruneId, kb: KbId)
    requires Core(t, w) && PrunesInv(w)
    ensures PrunesInv(ListOld(w, p, kb))
  {
    if p !in w.prunes {
      OldIsHeld(t, w, kb, OldPrune(map j | j in w.jobs && j in Old(w.jobs, kb) :: w.jobs[j].version, None));
      AddedHeld(w, ListOld(w, p, kb), p);
    }
  }

  lemma OldIsHeld(t: Tools, w: World, kb: KbId, k: Prune)
    requires KeysInv(w) && k == OldPrune(map j | j in w.jobs && j in Old(w.jobs, kb) :: w.jobs[j].version, None)
    ensures PruneInv(w, k)
  {
    forall j | j in w.jobs && w.jobs[j].version in Doomed(k) ensures !Protected(w, j) {
      var i :| i in k.ids && k.ids[i] == w.jobs[j].version;
      assert i == j;
    }
  }

  lemma AddedHeld(w: World, w': World, p: PruneId)
    requires PrunesInv(w) && p in w'.prunes && w' == w.(prunes := w.prunes[p := w'.prunes[p]]) && PruneInv(w, w'.prunes[p])
    ensures PrunesInv(w')
  {
    forall i | i in w'.prunes ensures PruneInv(w', w'.prunes[i]) {
      assert PruneInv(w, w'.prunes[i]);
      forall j | j in w'.jobs && Protected(w', j) ensures Protected(w, j) { NewestKeeps(w, w', j); }
    }
  }

  lemma ListFailedHolds(t: Tools, w: World, p: PruneId, kb: KbId, current: JobId)
    requires Core(t, w) && PrunesInv(w)
    ensures PrunesInv(ListFailed(w, p, kb, current))
  {
    if p !in w.prunes {
      FailedIsHeld(t, w, kb, current, FailedPrune(FailedVersions(w, kb, current)));
      AddedHeld(w, ListFailed(w, p, kb, current), p);
    }
  }

  lemma FailedIsHeld(t: Tools, w: World, kb: KbId, current: JobId, k: Prune)
    requires KeysInv(w) && k == FailedPrune(FailedVersions(w, kb, current))
    ensures PruneInv(w, k)
  {
    forall j | j in w.jobs && w.jobs[j].version in Doomed(k) ensures !Protected(w, j) {
      var i :| i in FailedIds(w.jobs, kb) && w.jobs[i].version == w.jobs[j].version && Some(i) != Newest(FailedIds(w.jobs, kb));
      assert i == j && Newest(FailedIds(w.jobs, kb)).value > j;
    }
  }

  lemma CommitPruneGentle(t: Tools, w: World, p: PruneId)
    requires PrunesInv(w)
    ensures PrunesInv(CommitPrune(t, w, p))
  {
    if HasLooked(w, p) {
      var k, w1 := w.prunes[p], w.(prunes := w.prunes - {p});
      assert PruneInv(w, k);
      PrunesKeep(w, w1);
      HeldIsPrunable(w1, k);
      PruneGentle(w1, k.ids.Keys, k.cited.value, Doomed(k));
      PrunesKeep(w1, PruneRows(w1, k.ids.Keys, k.cited.value, Doomed(k)));
    }
  }

  lemma NewJobHeld(w: World, w1: World, id: JobId, kb: KbId, v: Version, shape: Shape, files: map<Name, Data>)
    requires PrunesInv(w) && FreshIds(w, id, v) && w1 == w.(kbs := w1.kbs)
    ensures PrunesInv(WithJob(w1, id, kb, v, shape, files))
  {
    SameJobsHeld(w, w1);
    WithJobGentle(w1, id, kb, v, shape, files);
    PrunesKeep(w1, WithJob(w1, id, kb, v, shape, files));
  }

  lemma UploadHeld(t: Tools, w: World, r: Request)
    requires PrunesInv(w) && FreshIds(w, r.job, r.version) && Upload(t, w, r).Accepted?
    ensures PrunesInv(Upload(t, w, r).world)
  {
    var shape := RequestShape(w, r);
    var w1 := w.(kbs := w.kbs[r.kb := Config(shape.kbType, shape.model, r.size, r.overlap)]);
    NewJobHeld(w, w1, r.job, r.kb, r.version, shape, AddCarried(t, w, r) + r.files);
  }

  lemma RemoveHeld(t: Tools, w: World, kb: KbId, file: Name, id: JobId, v: Version)
    requires PrunesInv(w) && FreshIds(w, id, v) && RemoveDocument(t, w, kb, file, id, v).Accepted?
    ensures PrunesInv(RemoveDocument(t, w, kb, file, id, v).world)
  {
    RemovedWorld(t, w, kb, file, id, v);
    var live := w.jobs[Live(w.jobs, kb).value];
    NewJobHeld(w, w, id, kb, v, JobShape(live, w.kbs[kb]), Carried(t, DirFiles(w, live.version), {file}, true));
  }

  lemma RestoreHeld(t: Tools, w: World, kb: KbId, id: JobId, v: Version)
    requires PrunesInv(w) && FreshIds(w, id, v) && Restore(t, w, kb, id, v).Accepted?
    ensures PrunesInv(Restore(t, w, kb, id, v).world)
  {
    var source := w.jobs[Previous(w.jobs, kb).value];
    NewJobHeld(w, w, id, kb, v, JobShape(source, w.kbs[kb]), Carried(t, DirFiles(w, source.version), {}, false));
  }

  lemma RetryHeld(w: World, kb: KbId, id: JobId)
    requires PrunesInv(w) && Retry(w, kb, id).Accepted?
    ensures PrunesInv(Retry(w, kb, id).world)
  {
    OneRowGentle(w, Retry(w, kb, id).world, id);
    PrunesKeep(w, Retry(w, kb, id).world);
  }

  lemma DeleteHeld(w: World, kb: KbId, used: bool, removed: bool)
    requires PrunesInv(w) && Delete(w, kb, used, removed).Accepted?
    ensures PrunesInv(Delete(w, kb, used, removed).world)
  {
    DeleteGentle(w, kb, used, removed);
    PrunesKeep(w, Delete(w, kb, used, removed).world);
  }

  predicate IsWork(s: Step) {
    s.DoDispatch? || s.DoDispatchFailed? || s.DoStart? || s.DoLoadCandidates? || s.DoLoadNext? || s.DoFinish? || s.DoAbort?
  }

  lemma WorkHeld(t: Tools, w: World, s: Step)
    requires Core(t, w) && PrunesInv(w) && IsWork(s)
    ensures PrunesInv(Apply(t, w, s))
  {
    var w' := Apply(t, w, s);
    if w'.jobs == w.jobs {
      SameJobsHeld(w, w');
    } else {
      WorkIsOneRow(t, w, s);
      OneRowGentle(w, w', s.job);
      PrunesKeep(w, w');
    }
  }

  lemma WorkIsOneRow(t: Tools, w: World, s: Step)
    requires Core(t, w) && IsWork(s) && Apply(t, w, s).jobs != w.jobs
    ensures OneRow(w, Apply(t, w, s), s.job) && InFlight(w.jobs[s.job]) && Apply(t, w, s).prunes == w.prunes
  {
    match s
    case DoDispatchFailed(j) =>
    case DoStart(j) => StartIsOneRow(t, w, j);
    case DoFinish(j, ok) => FinishIsOneRow(t, w, j, ok);
    case DoAbort(j) => AbortIsOneRow(t, w, j);
    case _ =>
  }

  lemma StartIsOneRow(t: Tools, w: World, id: JobId)
    requires Core(t, w) && Start(w, id).jobs != w.jobs
    ensures OneRow(w, Start(w, id), id) && InFlight(w.jobs[id]) && Start(w, id).prunes == w.prunes
  {
    assert WorkerInv(t, w, id);
  }

  lemma FinishIsOneRow(t: Tools, w: World, id: JobId, embedOk: bool)
    requires Core(t, w) && Finish(t, w, id, embedOk).jobs != w.jobs
    ensures OneRow(w, Finish(t, w, id, embedOk), id) && InFlight(w.jobs[id]) && Finish(t, w, id, embedOk).prunes == w.prunes
  {
    assert ReadyToFinish(w, id);
    assert WorkerInv(t, w, id);
    FinishTouches(t, w, id, embedOk);
  }

  lemma FinishTouches(t: Tools, w: World, id: JobId, embedOk: bool)
    requires ReadyToFinish(w, id)
    ensures var w' := Finish(t, w, id, embedOk);
      && w' == w.(jobs := w.jobs[id := w'.jobs[id]], docs := w'.docs, workers := w'.workers)
      && w'.jobs[id].kb == w.jobs[id].kb && w'.jobs[id].version == w.jobs[id].version
      && forall j :: j != id ==> (j in w'.docs <==> j in w.docs) && (j in w.docs ==> w'.docs[j] == w.docs[j])
  {}

  lemma AbortIsOneRow(t: Tools, w: World, id: JobId)
    requires Core(t, w) && Abort(w, id).jobs != w.jobs
    ensures OneRow(w, Abort(w, id), id) && InFlight(w.jobs[id]) && Abort(w, id).prunes == w.prunes
  {
    assert WorkerInv(t, w, id);
  }

  lemma SameJobsHeld(w: World, w': World)
    requires PrunesInv(w) && w'.jobs == w.jobs && forall p :: p in w'.prunes ==> p in w.prunes && w'.prunes[p] == w.prunes[p]
    ensures PrunesInv(w')
  {
    forall p | p in w'.prunes ensures PruneInv(w', w'.prunes[p]) {
      assert PruneInv(w, w.prunes[p]);
      forall j | j in w'.jobs && Protected(w', j) ensures Protected(w, j) { NewestKeeps(w, w', j); }
    }
  }

  lemma LookUpHeld(w: World, p: PruneId)
    requires PrunesInv(w)
    ensures PrunesInv(LookUp(w, p))
  {
    if Looking(w, p) {
      assert PruneInv(w, w.prunes[p]);
      AddedHeld(w, LookUp(w, p), p);
    }
  }

  // ------------------------------------------------------------------ any step

  lemma CoreKeeps(t: Tools, w: World, s: Step)
    requires Inv(t, w) && CollisionFree(t) && Fits(w, s)
    ensures Core(t, Apply(t, w, s))
  {
    match s
    case DoUpload(r) => if Upload(t, w, r).Accepted? { UploadKeeps(t, w, r); }
    case DoRemove(kb, f, j, v) => if RemoveDocument(t, w, kb, f, j, v).Accepted? { RemoveKeeps(t, w, kb, f, j, v); }
    case DoRestore(kb, j, v) => if Restore(t, w, kb, j, v).Accepted? { RestoreKeeps(t, w, kb, j, v); }
    case DoRetry(kb, j) => if Retry(w, kb, j).Accepted? { RetryKeeps(t, w, kb, j); }
    case DoDelete(kb, used, removed) => if Delete(w, kb, used, removed).Accepted? { DeleteKeeps(t, w, kb, used, removed); }
    case DoDispatch(j) => DispatchKeeps(t, w, j);
    case DoDispatchFailed(j) => DispatchFailedKeeps(t, w, j);
    case DoStart(j) => StartKeeps(t, w, j);
    case DoLoadCandidates(j) => LoadCandidatesKeeps(t, w, j);
    case DoLoadNext(j) => LoadNextKeeps(t, w, j);
    case DoFinish(j, ok) => FinishKeeps(t, w, j, ok);
    case DoAbort(j) => AbortKeeps(t, w, j);
    case DoDropDir(p, v) => DropDirKeeps(t, w, p, v);
    case DoCommitPrune(p) => CommitPruneKeeps(t, w, p);
    case DoRestart(rev) => RestartKeeps(t, w, rev);
    case _ => SameTablesKeep(t, w, Apply(t, w, s));
  }

  lemma HeldStaysHeld(t: Tools, w: World, s: Step)
    requires Inv(t, w) && Fits(w, s)
    ensures PrunesInv(Apply(t, w, s))
  {
    if IsWork(s) {
      WorkHeld(t, w, s);
    } else {
      match s
      case DoUpload(r) => if Upload(t, w, r).Accepted? { UploadHeld(t, w, r); }
      case DoRemove(kb, f, j, v) => if RemoveDocument(t, w, kb, f, j, v).Accepted? { RemoveHeld(t, w, kb, f, j, v); }
      case DoRestore(kb, j, v) => if Restore(t, w, kb, j, v).Accepted? { RestoreHeld(t, w, kb, j, v); }
      case DoRetry(kb, j) => if Retry(w, kb, j).Accepted? { RetryHeld(w, kb, j); }
      case DoDelete(kb, used, removed) => if Delete(w, kb, used, removed).Accepted? { DeleteHeld(w, kb, used, removed); }
      case DoListOld(p, kb) => ListOldHolds(t, w, p, kb);
      case DoListFailed(p, kb, j) => ListFailedHolds(t, w, p, kb, j);
      case DoLookUp(p) => LookUpHeld(w, p);
      case DoCommitPrune(p) => CommitPruneGentle(t, w, p);
      case DoRestart(rev) =>
      case _ => SameJobsHeld(w, Apply(t, w, s));
    }
  }

  lemma StepKeeps(t: Tools, w: World, s: Step)
    requires Inv(t, w) && CollisionFree(t) && Fits(w, s)
    ensures Inv(t, Apply(t, w, s))
  {
    CoreKeeps(t, w, s);
    HeldStaysHeld(t, w, s);
  }
}
