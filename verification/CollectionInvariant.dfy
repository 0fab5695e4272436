/** What every reachable state of the collections satisfies, step by step. */
module CollectionInvariant {
  import opened Basics
  import opened Ingestion
  import opened Collections

  // ------------------------------------------------------------------ documents

  predicate Recorded(j: Job) { j.size.Some? && j.overlap.Some? && j.parserRev.Some? }

  function ShapeOf(j: Job): Shape
    requires Recorded(j)
  {
    Shape(j.kbType, j.model, j.size.value, j.overlap.value)
  }

  /** The text and model of a chunk are the from-scratch ones, and so is its vector unless a
      prune has emptied it. */
  predicate ChunkSound(c: Chunk, f: Chunk) {
    c.piece == f.piece && c.model == f.model && (c.vector == f.vector || c.vector == None)
  }

  predicate ChunksSound(cs: seq<Chunk>, fs: seq<Chunk>) {
    |cs| == |fs| && forall i :: 0 <= i < |cs| ==> ChunkSound(cs[i], fs[i])
  }

  /** A stored document is what parsing its bytes afresh gives, up to emptied vectors. */
  predicate DocSound(t: Tools, rev: int, shape: Shape, name: Name, d: Doc) {
    var f := FreshDoc(t, rev, shape, name, t.preimage(d.hash));
    && t.hash(t.preimage(d.hash)) == d.hash
    && (d.Chunked? <==> f.Chunked?)
    && (d.Chunked? ==> ChunksSound(d.chunks, f.chunks))
  }

  ghost predicate RowsSound(t: Tools, rev: int, shape: Shape, rows: map<Name, Doc>) {
    forall n :: n in rows ==> DocSound(t, rev, shape, n, rows[n])
  }

  ghost predicate ReuseSound(t: Tools, rev: int, shape: Shape, reuse: Reuse) {
    forall k :: k in reuse ==> DocSound(t, rev, shape, k.0, Chunked(k.1, reuse[k]))
  }

  /** One row per staged file, holding that file's hash. */
  ghost predicate Covers(t: Tools, rows: map<Name, Doc>, files: map<Name, Data>) {
    rows.Keys == files.Keys && forall n :: n in rows ==> rows[n].hash == t.hash(files[n])
  }

  // ------------------------------------------------------------------ the invariant

  predicate NewestOfItsCollection(w: World, j: JobId)
    requires j in w.jobs
  {
    forall k :: k in w.jobs && w.jobs[k].kb == w.jobs[j].kb ==> k <= j
  }

  /** The jobs whose staged files something may still have to read. */
  predicate Protected(w: World, j: JobId)
    requires j in w.jobs
  {
    || InFlight(w.jobs[j])
    || j in Window(w.jobs, w.jobs[j].kb)
    || (w.jobs[j].status == FailedJob && NewestOfItsCollection(w, j))
  }

  predicate HasDir(w: World, j: JobId)
    requires j in w.jobs
  {
    w.jobs[j].version in w.dirs
  }

  function DirOf(w: World, j: JobId): Dir
    requires j in w.jobs && HasDir(w, j)
  {
    w.dirs[w.jobs[j].version]
  }

  /** One job: it names a collection that exists; a protected one still has its directory;
      counters and rows agree with its status; its rows are the from-scratch ones. */
  ghost predicate JobInv(t: Tools, w: World, j: JobId)
    requires j in w.jobs
  {
    var job := w.jobs[j];
    && job.kb in w.kbs
    && (Protected(w, j) ==> HasDir(w, j))
    && (HasDir(w, j) ==> DirOf(w, j).kb == job.kb && job.fileCount == |DirOf(w, j).files|)
    && (InFlight(job) ==> j !in w.docs && job.succeeded == 0 && job.failed == 0)
    && (job.status == Completed ==> j in w.docs && job.succeeded + job.failed == job.fileCount)
    && (j in w.docs ==>
          && w.docs[j].kb == job.kb
          && (job.status == Completed ==> Readable(w.docs[j].rows) != {})
          && (job.status == Completed && Recorded(job) ==> RowsSound(t, job.parserRev.value, ShapeOf(job), w.docs[j].rows))
          && (job.status == Completed && HasDir(w, j) ==> Covers(t, w.docs[j].rows, DirOf(w, j).files)))
  }

  ghost predicate JobsInv(t: Tools, w: World) {
    forall j :: j in w.jobs ==> JobInv(t, w, j)
  }

  /** Every version directory belongs to one job; no row names a job that is not there. */
  ghost predicate KeysInv(w: World) {
    && (forall i, j :: i in w.jobs && j in w.jobs && w.jobs[i].version == w.jobs[j].version ==> i == j)
    && w.docs.Keys <= w.jobs.Keys
  }

  ghost predicate CandidateSound(w: World, kb: KbId, c: Candidate) {
    && c.job.kb == kb && c.job.status == Completed
    && (c.id in w.jobs ==> w.jobs[c.id] == c.job)
    && exists k :: k in CompletedIds(w.jobs, kb) && k >= c.id
  }

  ghost predicate WorkerInv(t: Tools, w: World, id: JobId)
    requires id in w.workers
  {
    var k := w.workers[id];
    && id in w.jobs && InFlight(w.jobs[id]) && k.kb == w.jobs[id].kb && k.version == w.jobs[id].version
    && (k.phase != Waiting ==> Recorded(w.jobs[id]) && ShapeOf(w.jobs[id]) == k.shape && w.jobs[id].parserRev == Some(w.rev))
    && (k.phase.Loading? ==>
          && ReuseSound(t, w.rev, k.shape, k.phase.reuse)
          && forall c :: c in k.phase.todo ==> CandidateSound(w, k.kb, c))
  }

  ghost predicate WorkersInv(t: Tools, w: World) {
    forall id :: id in w.workers ==> WorkerInv(t, w, id)
  }

  /** What a prune in flight has listed: directories nothing needs any more, and completed
      generations that have left the window, each with its directory. */
  ghost predicate PruneInv(w: World, p: Prune) {
    && (forall j :: j in w.jobs && w.jobs[j].version in Doomed(p) ==> !Protected(w, j))
    && (p.OldPrune? ==>
          && (forall j :: j in p.ids && j in w.jobs ==> w.jobs[j].status == Completed && w.jobs[j].version == p.ids[j])
          && (p.cited.Some? ==> p.cited.value <= p.ids.Keys))
  }

  ghost predicate PrunesInv(w: World) {
    forall p :: p in w.prunes ==> PruneInv(w, w.prunes[p])
  }

  /** Everything but the prunes in flight. */
  ghost predicate Core(t: Tools, w: World) {
    JobsInv(t, w) && KeysInv(w) && WorkersInv(t, w)
  }

  ghost predicate Inv(t: Tools, w: World) {
    Core(t, w) && PrunesInv(w)
  }

  // ------------------------------------------------------------------ frames

  /** What a step may do to a job it does not concern: drop its directory once nothing
      protects it, and nothing else. */
  predicate Untouched(w: World, w': World, j: JobId) {
    && j in w.jobs && j in w'.jobs && w'.jobs[j] == w.jobs[j]
    && w.jobs[j].kb in w'.kbs
    && (j in w'.docs <==> j in w.docs) && (j in w.docs ==> w'.docs[j] == w.docs[j])
    && (Protected(w', j) ==> HasDir(w', j))
    && (HasDir(w', j) ==> HasDir(w, j) && DirOf(w', j) == DirOf(w, j))
  }

  lemma UntouchedKeeps(t: Tools, w: World, w': World, j: JobId)
    requires Untouched(w, w', j) && JobInv(t, w, j)
    ensures JobInv(t, w', j)
  {}

  /** A worker none of whose candidates changed. */
  lemma WorkerKeeps(t: Tools, w: World, w': World, id: JobId)
    requires id in w.workers && id in w'.workers && w'.workers[id] == w.workers[id] && WorkerInv(t, w, id)
    requires id in w'.jobs && w'.jobs[id] == w.jobs[id] && w'.rev == w.rev
    requires forall c :: CandidateSound(w, w.workers[id].kb, c) ==> CandidateSound(w', w.workers[id].kb, c)
    ensures WorkerInv(t, w', id)
  {}

  // ------------------------------------------------------------------ the window

  /** The window is exactly the completed jobs with at most one newer one. */
  lemma WindowIsTopTwo(jobs: map<JobId, Job>, kb: KbId, j: JobId)
    ensures j in Window(jobs, kb) <==>
      j in CompletedIds(jobs, kb) && forall a, b :: a in CompletedIds(jobs, kb) && b in CompletedIds(jobs, kb) && a > j && b > j ==> a == b
  {
    var ids := CompletedIds(jobs, kb);
    if ids != {} {
      var live := Live(jobs, kb).value;
      if Previous(jobs, kb).Some? {
        var previous := Previous(jobs, kb).value;
        assert previous != live && previous in ids;
        assert forall x :: x in ids && x != live ==> x in ids - {live};
        if j in ids && j != live && j != previous {
          assert j < previous < live;
        }
      } else {
        assert forall x :: x in ids ==> x == live || x in ids - {live};
      }
    }
  }

  /** Removing jobs below the window, or adding one, moves the window only upwards. */
  lemma WindowAfter(jobs: map<JobId, Job>, jobs': map<JobId, Job>, kb: KbId)
    requires Window(jobs, kb) <= CompletedIds(jobs', kb)
    ensures forall j :: j in CompletedIds(jobs, kb) && j in Window(jobs', kb) ==> j in Window(jobs, kb)
  {
    var ids := CompletedIds(jobs, kb);
    forall j | j in ids && j !in Window(jobs, kb) ensures j !in Window(jobs', kb) {
      var live := Live(jobs, kb).value;
      assert j in ids - {live};
      var previous := Previous(jobs, kb).value;
      assert live > j && previous > j && live != previous;
      WindowIsTopTwo(jobs', kb, j);
    }
  }
}
