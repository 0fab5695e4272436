/** The tables and directories behind upload-managed knowledge bases, and every commit that
    changes them (`ui/backend/knowledge_bases.py`, `ui/backend/ingestion.py`,
    `ui/backend/retention.py`). One step is what one commit makes visible; a worker's reads
    between two commits are steps of their own. */
module Collections {
  import opened Basics
  import opened Ingestion

  type KbId = int
  type JobId = int
  type RunId = nat
  /** The `v_<hex>` name of one job's directory; fresh for every job. */
  type Version = nat

  datatype Status = Queued | Running | Completed | FailedJob

  /** A `knowledge_ingestion_jobs` row. The three `None`-able columns are unset on rows
      written before they existed. */
  datatype Job = Job(
    kb: KbId, version: Version, kbType: KbType, model: Option<string>,
    size: Option<int>, overlap: Option<int>, parserRev: Option<int>,
    status: Status, fileCount: nat, succeeded: nat, failed: nat)

  datatype Config = Config(kbType: KbType, model: Option<string>, size: int, overlap: int)

  /** All document and chunk rows of one job, with the `kb_id` they carry. */
  datatype RowSet = RowSet(kb: KbId, rows: map<Name, Doc>)

  datatype Dir = Dir(kb: KbId, files: map<Name, Data>)

  datatype Candidate = Candidate(id: JobId, job: Job)

  /** Where a worker thread is: handed over, marked running, or reading the candidate
      generations one by one into its reuse table. */
  datatype Phase = Waiting | Started | Loading(todo: seq<Candidate>, reuse: Reuse)

  datatype Worker = Worker(kb: KbId, version: Version, shape: Shape, phase: Phase)

  type PruneId = nat

  /** A prune between its queries and its commit: what it has listed and, for old generations,
      which of them it saw a run refer to. */
  datatype Prune =
    | OldPrune(ids: map<JobId, Version>, cited: Option<set<JobId>>)
    | FailedPrune(versions: set<Version>)

  /** `checks` holds the references a run's thread is about to insert, having found the job. */
  datatype World = World(
    rev: int,
    kbs: map<KbId, Config>,
    jobs: map<JobId, Job>,
    docs: map<JobId, RowSet>,
    dirs: map<Version, Dir>,
    refs: set<(RunId, JobId)>,
    workers: map<JobId, Worker>,
    prunes: map<PruneId, Prune>,
    checks: set<(RunId, JobId)>)

  datatype Refusal =
    | UnknownCollection | UnknownJob | StillProcessing | NoFinishedUpload | NoSuchDocument
    | OnlyReadableDocument | FilesGone | TooManyDocuments | NoEarlierUpload | NotFailed
    | NewerUpload | UsedByTeams | NoFiles

  datatype Reply = Accepted(world: World) | Refused(why: Refusal)

  const MAX_DOCUMENTS_PER_KB: int := 200

  // ------------------------------------------------------------------ generations

  predicate InFlight(j: Job) { j.status == Queued || j.status == Running }

  function CompletedIds(jobs: map<JobId, Job>, kb: KbId): set<JobId> {
    set j | j in jobs && jobs[j].kb == kb && jobs[j].status == Completed
  }

  function FailedIds(jobs: map<JobId, Job>, kb: KbId): set<JobId> {
    set j | j in jobs && jobs[j].kb == kb && jobs[j].status == FailedJob
  }

  function Live(jobs: map<JobId, Job>, kb: KbId): Option<JobId> {
    Newest(CompletedIds(jobs, kb))
  }

  /** The generation before the live one. */
  function Previous(jobs: map<JobId, Job>, kb: KbId): Option<JobId> {
    var live := Live(jobs, kb);
    if live.None? then None else Newest(CompletedIds(jobs, kb) - {live.value})
  }

  /** The two newest completed jobs. */
  function Window(jobs: map<JobId, Job>, kb: KbId): set<JobId> {
    var live, previous := Live(jobs, kb), Previous(jobs, kb);
    (if live.Some? then {live.value} else {}) + (if previous.Some? then {previous.value} else {})
  }

  function Old(jobs: map<JobId, Job>, kb: KbId): set<JobId> {
    CompletedIds(jobs, kb) - Window(jobs, kb)
  }

  predicate AnyInFlight(jobs: map<JobId, Job>, kb: KbId) {
    exists j :: j in jobs && jobs[j].kb == kb && InFlight(jobs[j])
  }

  function Referenced(refs: set<(RunId, JobId)>): set<JobId> {
    set r | r in refs :: r.1
  }

  // ------------------------------------------------------------------ shapes

  /** The shape a job was cut with, the record's config standing in for unset columns. */
  function JobShape(j: Job, c: Config): Shape {
    Shape(j.kbType,
          if Embeds(j.kbType) then j.model else None,
          if j.size.Some? then j.size.value else c.size,
          if j.overlap.Some? then j.overlap.value else c.overlap)
  }

  /** Whether `previous` cut and embedded its chunks exactly as a job of this shape would. */
  predicate Carryable(previous: Job, shape: Shape, rev: int) {
    && previous.size.Some?
    && previous.parserRev == Some(rev)
    && previous.kbType == shape.kbType
    && previous.model == shape.model
    && previous.size == Some(shape.size)
    && previous.overlap == Some(shape.overlap)
  }

  // ------------------------------------------------------------------ staging

  /** The files of a generation that survive beside the superseded names. */
  function Carried(t: Tools, files: map<Name, Data>, superseded: set<Name>, exact: bool): map<Name, Data> {
    map n | n in files && !exists s :: s in superseded && (if exact then s == n else t.fold(s) == t.fold(n)) :: files[n]
  }

  function DirFiles(w: World, v: Version): map<Name, Data> {
    if v in w.dirs then w.dirs[v].files else map[]
  }

  function NewJob(kb: KbId, v: Version, shape: Shape, files: map<Name, Data>): Job {
    Job(kb, v, shape.kbType, shape.model, Some(shape.size), Some(shape.overlap), None, Queued, |files|, 0, 0)
  }

  function WithJob(w: World, id: JobId, kb: KbId, v: Version, shape: Shape, files: map<Name, Data>): World {
    w.(jobs := w.jobs[id := NewJob(kb, v, shape, files)], dirs := w.dirs[v := Dir(kb, files)])
  }

  // ------------------------------------------------------------------ requests

  /** What an upload request says; `kbType` is `None` when it names no shape. `source` is the
      directory of the live generation as an add's own query found it, some time before. */
  datatype Request = Request(
    kb: KbId, job: JobId, version: Version, files: map<Name, Data>, add: bool, source: Option<Version>, maxDocuments: int,
    kbType: Option<KbType>, model: Option<string>, size: int, overlap: int)

  /** What that query finds. */
  function LiveVersion(w: World, kb: KbId): Option<Version> {
    if kb in w.kbs && Live(w.jobs, kb).Some? then Some(w.jobs[Live(w.jobs, kb).value].version) else None
  }

  function RequestShape(w: World, r: Request): Shape {
    var inherited := if r.kb in w.kbs then w.kbs[r.kb] else Config(LocalFolder, None, 1000, 100);
    var kbType := if r.kbType.Some? then r.kbType.value else inherited.kbType;
    var model := if r.kbType.Some? then r.model else inherited.model;
    Shape(kbType, if Embeds(kbType) then model else None, r.size, r.overlap)
  }

  /** Whether an upload has a generation with files on disk to stage beside its own. */
  predicate Extends(w: World, r: Request) { r.add && r.source.Some? && r.source.value in w.dirs }

  function AddCarried(t: Tools, w: World, r: Request): map<Name, Data> {
    if Extends(w, r)
    then Carried(t, DirFiles(w, r.source.value), r.files.Keys, false)
    else map[]
  }

  function Upload(t: Tools, w: World, r: Request): Reply {
    if r.files == map[] then Refused(NoFiles)
    else
      var carried := AddCarried(t, w, r);
      if Extends(w, r) && |r.files| + |carried| > r.maxDocuments then Refused(TooManyDocuments)
      else
        var shape := RequestShape(w, r);
        var w1 := w.(kbs := w.kbs[r.kb := Config(shape.kbType, shape.model, r.size, r.overlap)]);
        Accepted(WithJob(w1, r.job, r.kb, r.version, shape, carried + r.files))
  }

  function RemoveDocument(t: Tools, w: World, kb: KbId, file: Name, id: JobId, v: Version): Reply {
    if kb !in w.kbs then Refused(UnknownCollection)
    else if AnyInFlight(w.jobs, kb) then Refused(StillProcessing)
    else if Live(w.jobs, kb).None? then Refused(NoFinishedUpload)
    else
      var live := Live(w.jobs, kb).value;
      var rows := if live in w.docs then w.docs[live].rows else map[];
      if file !in rows then Refused(NoSuchDocument)
      else if Readable(rows) - {file} == {} then Refused(OnlyReadableDocument)
      else if w.jobs[live].version !in w.dirs then Refused(FilesGone)
      else
        var carried := Carried(t, DirFiles(w, w.jobs[live].version), {file}, true);
        if 1 + |carried| > MAX_DOCUMENTS_PER_KB then Refused(TooManyDocuments)
        else Accepted(WithJob(w, id, kb, v, JobShape(w.jobs[live], w.kbs[kb]), carried))
  }

  function Restore(t: Tools, w: World, kb: KbId, id: JobId, v: Version): Reply {
    if kb !in w.kbs then Refused(UnknownCollection)
    else if AnyInFlight(w.jobs, kb) then Refused(StillProcessing)
    else if Previous(w.jobs, kb).None? then Refused(NoEarlierUpload)
    else
      var previous := Previous(w.jobs, kb).value;
      if w.jobs[previous].version !in w.dirs then Refused(FilesGone)
      else
        var carried := Carried(t, DirFiles(w, w.jobs[previous].version), {}, false);
        if |carried| > MAX_DOCUMENTS_PER_KB then Refused(TooManyDocuments)
        else Accepted(WithJob(w, id, kb, v, JobShape(w.jobs[previous], w.kbs[kb]), carried))
  }

  /** Resetting a failed job in place: same row, same directory, its old rows deleted. */
  function Retry(w: World, kb: KbId, id: JobId): Reply {
    if kb !in w.kbs then Refused(UnknownCollection)
    else if id !in w.jobs || w.jobs[id].kb != kb then Refused(UnknownJob)
    else if AnyInFlight(w.jobs, kb) then Refused(StillProcessing)
    else if w.jobs[id].status != FailedJob then Refused(NotFailed)
    else if exists k :: k in w.jobs && w.jobs[k].kb == kb && k > id then Refused(NewerUpload)
    else if w.jobs[id].version !in w.dirs then Refused(FilesGone)
    else Accepted(w.(jobs := w.jobs[id := w.jobs[id].(status := Queued, succeeded := 0, failed := 0)],
                     docs := w.docs - {id}))
  }

  function JobsOf(jobs: map<JobId, Job>, kb: KbId): set<JobId> {
    set j | j in jobs && jobs[j].kb == kb
  }

  /** Deleting a collection; `removed` says whether its upload directory could be removed. */
  function Delete(w: World, kb: KbId, used: bool, removed: bool): Reply {
    if kb !in w.kbs then Refused(UnknownCollection)
    else if used then Refused(UsedByTeams)
    else if AnyInFlight(w.jobs, kb) then Refused(StillProcessing)
    else
      Accepted(w.(kbs := w.kbs - {kb},
                  jobs := w.jobs - JobsOf(w.jobs, kb),
                  docs := map j | j in w.docs && w.docs[j].kb != kb :: w.docs[j],
                  dirs := if removed then map v | v in w.dirs && w.dirs[v].kb != kb :: w.dirs[v] else w.dirs,
                  refs := set r | r in w.refs && r.1 !in JobsOf(w.jobs, kb)))
  }

  // ------------------------------------------------------------------ workers

  function Dispatch(w: World, id: JobId): World {
    if id in w.jobs && w.jobs[id].status == Queued && id !in w.workers && w.jobs[id].kb in w.kbs
    then w.(workers := w.workers[id := Worker(w.jobs[id].kb, w.jobs[id].version, JobShape(w.jobs[id], w.kbs[w.jobs[id].kb]), Waiting)])
    else w
  }

  /** The executor refused the job: it is failed, its files kept for a retry. */
  function DispatchFailed(w: World, id: JobId): World {
    if id in w.jobs && w.jobs[id].status == Queued && id !in w.workers
    then w.(jobs := w.jobs[id := w.jobs[id].(status := FailedJob)])
    else w
  }

  function Start(w: World, id: JobId): World {
    if id in w.workers && id in w.jobs && w.workers[id].phase == Waiting then
      var k := w.workers[id];
      w.(jobs := w.jobs[id := w.jobs[id].(status := Running, kbType := k.shape.kbType, model := k.shape.model,
                                          size := Some(k.shape.size), overlap := Some(k.shape.overlap), parserRev := Some(w.rev))],
         workers := w.workers[id := k.(phase := Started)])
    else w
  }

  /** The candidate query: the two newest other completed jobs, newest first. */
  function Candidates(w: World, id: JobId, kb: KbId): seq<Candidate> {
    var others := CompletedIds(w.jobs, kb) - {id};
    var first := Newest(others);
    if first.None? then []
    else
      var second := Newest(others - {first.value});
      [Candidate(first.value, w.jobs[first.value])]
      + (if second.Some? then [Candidate(second.value, w.jobs[second.value])] else [])
  }

  function LoadCandidates(w: World, id: JobId): World {
    if id in w.workers && w.workers[id].phase == Started
    then w.(workers := w.workers[id := w.workers[id].(phase := Loading(Candidates(w, id, w.workers[id].kb), map[]))])
    else w
  }

  /** A candidate's readable documents, keyed as the reuse table is. */
  function Keyed(rows: map<Name, Doc>): Reuse {
    map n | n in rows && rows[n].Chunked? && rows[n].chunks != [] :: (n, rows[n].hash) := rows[n].chunks
  }

  /** Folding one candidate's rows in; an entry already there (a newer job's) wins. */
  function LoadNext(w: World, id: JobId): World {
    if id in w.workers && w.workers[id].phase.Loading? && w.workers[id].phase.todo != [] then
      var k := w.workers[id];
      var c := k.phase.todo[0];
      var rows := if Carryable(c.job, k.shape, w.rev) && c.id in w.docs then w.docs[c.id].rows else map[];
      w.(workers := w.workers[id := k.(phase := Loading(k.phase.todo[1..], Keyed(rows) + k.phase.reuse))])
    else w
  }

  predicate ReadyToFinish(w: World, id: JobId) {
    id in w.workers && id in w.jobs && w.workers[id].phase.Loading? && w.workers[id].phase.todo == []
  }

  /** The worker's one write transaction, or its record of a failed embedding call. */
  function Finish(t: Tools, w: World, id: JobId, embedOk: bool): World {
    if ReadyToFinish(w, id) then
      var k := w.workers[id];
      var j := w.jobs[id];
      var w1 := w.(workers := w.workers - {id});
      match Outcomes(t, w.rev, k.shape, k.phase.reuse, DirFiles(w, k.version), embedOk)
      case EmbeddingFailed => w1.(jobs := w.jobs[id := j.(status := FailedJob)])
      case Written(rows, succeeded, failed, done) =>
        w1.(jobs := w.jobs[id := j.(status := if done then Completed else FailedJob,
                                    succeeded := j.succeeded + succeeded, failed := j.failed + failed)],
            docs := w.docs[id := RowSet(k.kb, rows)])
    else w
  }

  /** The worker's catch-all: rolled back, the job failed. */
  function Abort(w: World, id: JobId): World {
    if id in w.workers && id in w.jobs
    then w.(jobs := w.jobs[id := w.jobs[id].(status := FailedJob)], workers := w.workers - {id})
    else w
  }

  // ------------------------------------------------------------------ pruning, references, restart

  function VersionsOf(jobs: map<JobId, Job>, ids: set<JobId>): set<Version> {
    set j | j in ids && j in jobs :: jobs[j].version
  }

  function NullVector(c: Chunk): Chunk { c.(vector := None) }

  function NullRow(d: Doc): Doc {
    match d
    case Chunked(h, chunks) => Chunked(h, seq(|chunks|, i requires 0 <= i < |chunks| => NullVector(chunks[i])))
    case Failed(_) => d
  }

  function NullRows(s: RowSet): RowSet {
    s.(rows := map n | n in s.rows :: NullRow(s.rows[n]))
  }

  /** The listed generations lose their directories; one seen cited loses its vectors, any other
      its rows, whatever has become of it by now. */
  function PruneRows(w: World, ids: set<JobId>, cited: set<JobId>, versions: set<Version>): World {
    w.(dirs := w.dirs - versions,
       docs := map j | j in w.docs && j !in ids - cited :: if j in cited then NullRows(w.docs[j]) else w.docs[j],
       jobs := w.jobs - (ids - cited))
  }

  /** A prune nothing comes between. */
  function PruneOld(w: World, kb: KbId): World {
    var outside := Old(w.jobs, kb);
    PruneRows(w, outside, outside * Referenced(w.refs), VersionsOf(w.jobs, outside))
  }

  function ListOld(w: World, p: PruneId, kb: KbId): World {
    if p in w.prunes then w
    else w.(prunes := w.prunes[p := OldPrune(map j | j in w.jobs && j in Old(w.jobs, kb) :: w.jobs[j].version, None)])
  }

  predicate Looking(w: World, p: PruneId) { p in w.prunes && w.prunes[p].OldPrune? && w.prunes[p].cited.None? }

  predicate HasLooked(w: World, p: PruneId) { p in w.prunes && w.prunes[p].OldPrune? && w.prunes[p].cited.Some? }

  /** `referenced_job_ids` */
  function LookUp(w: World, p: PruneId): World {
    if Looking(w, p)
    then w.(prunes := w.prunes[p := w.prunes[p].(cited := Some(w.prunes[p].ids.Keys * Referenced(w.refs)))])
    else w
  }

  /** The directories a prune removes: at once, one by one, before it commits anything. */
  function Doomed(p: Prune): set<Version> {
    match p
    case OldPrune(ids, _) => set j | j in ids :: ids[j]
    case FailedPrune(versions) => versions
  }

  function DropDir(w: World, p: PruneId, v: Version): World {
    if p in w.prunes && v in Doomed(w.prunes[p]) then w.(dirs := w.dirs - {v}) else w
  }

  /** What the prune in flight will delete. */
  function Taken(w: World, p: PruneId): set<JobId>
    requires HasLooked(w, p)
  {
    w.prunes[p].ids.Keys - w.prunes[p].cited.value
  }

  /** The prune's transaction. A database that enforces foreign keys refuses all of it when it
      would delete a job that a run refers to. */
  function CommitPrune(t: Tools, w: World, p: PruneId): World {
    if !HasLooked(w, p) then w
    else
      var w1 := w.(prunes := w.prunes - {p});
      if t.keys && Taken(w, p) * Referenced(w.refs) != {} then w1
      else PruneRows(w1, w.prunes[p].ids.Keys, w.prunes[p].cited.value, Doomed(w.prunes[p]))
  }

  /** Every failed job's directory but the newest one's and the caller's. */
  function FailedVersions(w: World, kb: KbId, current: JobId): set<Version> {
    var ids := FailedIds(w.jobs, kb);
    var newest := Newest(ids);
    VersionsOf(w.jobs, ids - (if newest.Some? then {newest.value} else {}) - {current})
  }

  function PruneFailed(w: World, kb: KbId, current: JobId): World {
    w.(dirs := w.dirs - FailedVersions(w, kb, current))
  }

  function ListFailed(w: World, p: PruneId, kb: KbId, current: JobId): World {
    if p in w.prunes then w else w.(prunes := w.prunes[p := FailedPrune(FailedVersions(w, kb, current))])
  }

  function EndPrune(w: World, p: PruneId): World { w.(prunes := w.prunes - {p}) }

  /** A run's thread finds the generation its search event names. */
  function CheckReference(w: World, run: RunId, id: JobId): World {
    if id in w.jobs then w.(checks := w.checks + {(run, id)}) else w
  }

  /** And inserts the reference without looking again; only an enforced key would refuse it. */
  function InsertReference(t: Tools, w: World, run: RunId, id: JobId): World {
    if (run, id) !in w.checks then w
    else w.(checks := w.checks - {(run, id)}, refs := if t.keys && id !in w.jobs then w.refs else w.refs + {(run, id)})
  }

  function PurgeRun(w: World, run: RunId): World {
    w.(refs := set r | r in w.refs && r.0 != run)
  }

  /** A new process: no worker survives it, and its start-up sweep fails what they left. */
  function Restart(w: World, rev: int): World {
    w.(rev := rev, workers := map[], prunes := map[], checks := {},
       jobs := map j | j in w.jobs :: if InFlight(w.jobs[j]) then w.jobs[j].(status := FailedJob) else w.jobs[j])
  }

  // ------------------------------------------------------------------ steps

  datatype Step =
    | DoUpload(request: Request)
    | DoRemove(kb: KbId, file: Name, job: JobId, version: Version)
    | DoRestore(kb: KbId, job: JobId, version: Version)
    | DoRetry(kb: KbId, job: JobId)
    | DoDelete(kb: KbId, used: bool, removed: bool)
    | DoDispatch(job: JobId)
    | DoDispatchFailed(job: JobId)
    | DoStart(job: JobId)
    | DoLoadCandidates(job: JobId)
    | DoLoadNext(job: JobId)
    | DoFinish(job: JobId, embedOk: bool)
    | DoAbort(job: JobId)
    | DoListOld(prune: PruneId, kb: KbId)
    | DoLookUp(prune: PruneId)
    | DoListFailed(prune: PruneId, kb: KbId, job: JobId)
    | DoDropDir(prune: PruneId, version: Version)
    | DoCommitPrune(prune: PruneId)
    | DoEndPrune(prune: PruneId)
    | DoCheck(run: RunId, job: JobId)
    | DoInsert(run: RunId, job: JobId)
    | DoPurge(run: RunId)
    | DoRestart(rev: int)

  function OrElse(r: Reply, w: World): World {
    if r.Accepted? then r.world else w
  }

  function Apply(t: Tools, w: World, s: Step): World {
    match s
    case DoUpload(r) => OrElse(Upload(t, w, r), w)
    case DoRemove(kb, f, j, v) => OrElse(RemoveDocument(t, w, kb, f, j, v), w)
    case DoRestore(kb, j, v) => OrElse(Restore(t, w, kb, j, v), w)
    case DoRetry(kb, j) => OrElse(Retry(w, kb, j), w)
    case DoDelete(kb, used, removed) => OrElse(Delete(w, kb, used, removed), w)
    case DoDispatch(j) => Dispatch(w, j)
    case DoDispatchFailed(j) => DispatchFailed(w, j)
    case DoStart(j) => Start(w, j)
    case DoLoadCandidates(j) => LoadCandidates(w, j)
    case DoLoadNext(j) => LoadNext(w, j)
    case DoFinish(j, ok) => Finish(t, w, j, ok)
    case DoAbort(j) => Abort(w, j)
    case DoListOld(p, kb) => ListOld(w, p, kb)
    case DoLookUp(p) => LookUp(w, p)
    case DoListFailed(p, kb, j) => ListFailed(w, p, kb, j)
    case DoDropDir(p, v) => DropDir(w, p, v)
    case DoCommitPrune(p) => CommitPrune(t, w, p)
    case DoEndPrune(p) => EndPrune(w, p)
    case DoCheck(r, j) => CheckReference(w, r, j)
    case DoInsert(r, j) => InsertReference(t, w, r, j)
    case DoPurge(r) => PurgeRun(w, r)
    case DoRestart(rev) => Restart(w, rev)
  }

  predicate Holds(p: Prune, id: JobId) { p.OldPrune? && id in p.ids }

  /** A new row's id exceeds every id in the table, and no prune in flight still holds it; a
      directory name was never used. */
  predicate FreshIds(w: World, id: JobId, v: Version) {
    && (forall j :: j in w.jobs ==> j < id)
    && v !in w.dirs
    && (forall j :: j in w.jobs ==> w.jobs[j].version != v)
    && (forall p :: p in w.prunes ==> !Holds(w.prunes[p], id) && v !in Doomed(w.prunes[p]))
  }

  /** What the database and the uuid generator guarantee about a step's arguments. */
  predicate Fits(w: World, s: Step) {
    match s
    case DoUpload(r) => FreshIds(w, r.job, r.version)
    case DoRemove(_, _, j, v) => FreshIds(w, j, v)
    case DoRestore(_, j, v) => FreshIds(w, j, v)
    case _ => true
  }
}
