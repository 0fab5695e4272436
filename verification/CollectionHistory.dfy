/** What one step, and so a whole history of steps, can never undo. */
module CollectionHistory {
  import opened Basics
  import opened Ingestion
  import opened Collections
  import opened CollectionInvariant
  import opened CollectionSteps

  // ------------------------------------------------------------------ one step

  /** Row, documents, chunks and staged files all as they were. */
  predicate Kept(w: World, w': World, j: JobId)
    requires j in w.jobs
  {
    && j in w'.jobs && w'.jobs[j] == w.jobs[j]
    && (j in w.docs ==> j in w'.docs && w'.docs[j] == w.docs[j])
    && DirKept(w, w', j)
  }

  predicate DirKept(w: World, w': World, j: JobId)
    requires j in w.jobs
  {
    HasDir(w, j) ==> w.jobs[j].version in w'.dirs && w'.dirs[w.jobs[j].version] == DirOf(w, j)
  }

  /** Every step but the prunes and the deletion leaves completed generations and staged
      files exactly as they are. */
  ghost predicate Calm(w: World, w': World) {
    && w.kbs.Keys <= w'.kbs.Keys
    && (forall j :: j in w.jobs && w.jobs[j].status == Completed ==> j in w'.jobs && w'.jobs[j] == w.jobs[j])
    && (forall j :: j in w.jobs && w.jobs[j].status == Completed && j in w.docs ==> j in w'.docs && w'.docs[j] == w.docs[j])
    && (forall v :: v in w.dirs ==> v in w'.dirs && w'.dirs[v] == w.dirs[v])
  }

  predicate Quiet(s: Step) { !s.DoDropDir? && !s.DoCommitPrune? && !s.DoDelete? }

  predicate IsRequest(s: Step) { s.DoUpload? || s.DoRemove? || s.DoRestore? || s.DoRetry? }

  lemma WithJobCalm(w: World, id: JobId, kb: KbId, v: Version, shape: Shape, files: map<Name, Data>)
    requires FreshIds(w, id, v)
    ensures Calm(w, WithJob(w, id, kb, v, shape, files))
  {}

  lemma RequestCalm(t: Tools, w: World, s: Step)
    requires Fits(w, s) && IsRequest(s)
    ensures Calm(w, Apply(t, w, s))
  {
    match s
    case DoUpload(r) =>
      var shape := RequestShape(w, r);
      var w1 := w.(kbs := w.kbs[r.kb := Config(shape.kbType, shape.model, r.size, r.overlap)]);
      WithJobCalm(w1, r.job, r.kb, r.version, shape, AddCarried(t, w, r) + r.files);
    case DoRemove(kb, f, j, v) =>
      if RemoveDocument(t, w, kb, f, j, v).Accepted? {
        RemovedWorld(t, w, kb, f, j, v);
        var live := w.jobs[Live(w.jobs, kb).value];
        WithJobCalm(w, j, kb, v, JobShape(live, w.kbs[kb]), Carried(t, DirFiles(w, live.version), {f}, true));
      }
    case DoRestore(kb, j, v) =>
      if Restore(t, w, kb, j, v).Accepted? {
        var source := w.jobs[Previous(w.jobs, kb).value];
        WithJobCalm(w, j, kb, v, JobShape(source, w.kbs[kb]), Carried(t, DirFiles(w, source.version), {}, false));
      }
    case DoRetry(kb, j) =>
  }

  lemma QuietCalm(t: Tools, w: World, s: Step)
    requires Inv(t, w) && Fits(w, s) && Quiet(s)
    ensures Calm(w, Apply(t, w, s))
  {
    if IsRequest(s) {
      RequestCalm(t, w, s);
    } else {
      QuietWorkerCalm(t, w, s);
    }
  }

  lemma QuietWorkerCalm(t: Tools, w: World, s: Step)
    requires Core(t, w) && Quiet(s) && !IsRequest(s)
    ensures Calm(w, Apply(t, w, s))
  {
    match s
    case DoFinish(j, ok) =>
      if ReadyToFinish(w, j) {
        assert WorkerInv(t, w, j);
        FinishTouches(t, w, j, ok);
      }
    case DoAbort(j) => if j in w.workers { assert WorkerInv(t, w, j); }
    case DoStart(j) => if j in w.workers { assert WorkerInv(t, w, j); }
    case DoRestart(rev) => RestartCalm(w, rev);
    case _ => OtherStepCalm(t, w, s);
  }

  lemma RestartCalm(w: World, rev: int)
    ensures Calm(w, Restart(w, rev))
  {}

  lemma OtherStepCalm(t: Tools, w: World, s: Step)
    requires Quiet(s) && !IsRequest(s) && !s.DoFinish? && !s.DoAbort? && !s.DoStart? && !s.DoRestart?
    ensures Calm(w, Apply(t, w, s))
  {}

  /** Only workers' own steps and a restart concern the workers. */
  lemma OtherWorkers(t: Tools, w: World, s: Step)
    requires !IsWork(s) && !s.DoRestart?
    ensures Apply(t, w, s).workers == w.workers
  {
    if IsRequest(s) { RequestWorkers(t, w, s); }
  }

  lemma RequestWorkers(t: Tools, w: World, s: Step)
    requires IsRequest(s)
    ensures Apply(t, w, s).workers == w.workers && Apply(t, w, s).prunes == w.prunes
  {}

  /** No prune in flight holds anything that is still needed. */
  lemma ProtectedIsNotHeld(t: Tools, w: World, p: PruneId, j: JobId)
    requires Inv(t, w) && j in w.jobs && Protected(w, j) && p in w.prunes
    ensures !Holds(w.prunes[p], j) && w.jobs[j].version !in Doomed(w.prunes[p])
  {
    assert PruneInv(w, w.prunes[p]);
  }

  lemma DropKeepsDir(t: Tools, w: World, p: PruneId, v: Version, j: JobId)
    requires Inv(t, w) && j in w.jobs && Protected(w, j)
    ensures DirKept(w, DropDir(w, p, v), j)
  {
    if p in w.prunes { ProtectedIsNotHeld(t, w, p, j); }
  }

  lemma CommitKeepsDir(t: Tools, w: World, p: PruneId, j: JobId)
    requires Inv(t, w) && j in w.jobs && Protected(w, j)
    ensures DirKept(w, CommitPrune(t, w, p), j)
  {
    if HasLooked(w, p) {
      ProtectedIsNotHeld(t, w, p, j);
      assert PruneInv(w, w.prunes[p]);
      CommitKeepsOthers(t, w, p, j);
    }
  }

  lemma CommitKeepsOthers(t: Tools, w: World, p: PruneId, j: JobId)
    requires HasLooked(w, p) && j in w.jobs && !Holds(w.prunes[p], j) && PruneInv(w, w.prunes[p])
    ensures var w' := CommitPrune(t, w, p); j in w'.jobs && w'.jobs[j] == w.jobs[j] && (j in w.docs ==> j in w'.docs && w'.docs[j] == w.docs[j])
    ensures w.jobs[j].version !in Doomed(w.prunes[p]) ==> DirKept(w, CommitPrune(t, w, p), j)
  {}

  lemma DeleteKeepsOthers(t: Tools, w: World, kb: KbId, used: bool, removed: bool, j: JobId)
    requires Inv(t, w) && Delete(w, kb, used, removed).Accepted? && j in w.jobs
    requires w.jobs[j].kb in Delete(w, kb, used, removed).world.kbs
    ensures Kept(w, Delete(w, kb, used, removed).world, j)
  {}

  /** No step removes or changes the staged files of a queued or running job, a window
      generation, or a newest job that has failed, short of deleting the collection. */
  lemma ProtectedDirKept(t: Tools, w: World, s: Step, j: JobId)
    requires Inv(t, w) && Fits(w, s) && j in w.jobs && Protected(w, j) && w.jobs[j].kb in Apply(t, w, s).kbs
    ensures DirKept(w, Apply(t, w, s), j)
  {
    if Quiet(s) {
      QuietCalm(t, w, s);
      CalmKeepsDir(w, Apply(t, w, s), j);
    } else if s.DoDropDir? {
      DropKeepsDir(t, w, s.prune, s.version, j);
    } else if s.DoCommitPrune? {
      CommitKeepsDir(t, w, s.prune, j);
    } else {
      DeleteKeepsDir(t, w, s.kb, s.used, s.removed, j);
    }
  }

  lemma CalmKeepsDir(w: World, w': World, j: JobId)
    requires Calm(w, w') && j in w.jobs
    ensures DirKept(w, w', j)
  {}

  lemma DeleteKeepsDir(t: Tools, w: World, kb: KbId, used: bool, removed: bool, j: JobId)
    requires Inv(t, w) && j in w.jobs && w.jobs[j].kb in Apply(t, w, DoDelete(kb, used, removed)).kbs
    ensures DirKept(w, Apply(t, w, DoDelete(kb, used, removed)), j)
  {
    if Delete(w, kb, used, removed).Accepted? { DeleteKeepsOthers(t, w, kb, used, removed, j); }
  }

  lemma CompletedRowKept(t: Tools, w: World, s: Step, j: JobId)
    requires Inv(t, w) && Fits(w, s) && j in w.jobs && w.jobs[j].status == Completed && w.jobs[j].kb in Apply(t, w, s).kbs
    requires s.DoCommitPrune? && s.prune in w.prunes ==> !Holds(w.prunes[s.prune], j)
    ensures j in Apply(t, w, s).jobs && Apply(t, w, s).jobs[j] == w.jobs[j]
    ensures j in w.docs ==> j in Apply(t, w, s).docs && Apply(t, w, s).docs[j] == w.docs[j]
  {
    if Quiet(s) {
      QuietCalm(t, w, s);
    } else if s.DoDelete? {
      if Delete(w, s.kb, s.used, s.removed).Accepted? { DeleteKeepsOthers(t, w, s.kb, s.used, s.removed, j); }
    } else if s.DoCommitPrune? {
      if HasLooked(w, s.prune) {
        assert PruneInv(w, w.prunes[s.prune]);
        CommitKeepsOthers(t, w, s.prune, j);
      }
    }
  }

  /** The two newest completed generations keep everything, whatever happens around them. */
  lemma WindowKept(t: Tools, w: World, s: Step, kb: KbId, j: JobId)
    requires Inv(t, w) && Fits(w, s) && j in Window(w.jobs, kb) && kb in Apply(t, w, s).kbs
    ensures Kept(w, Apply(t, w, s), j)
  {
    if s.DoCommitPrune? && s.prune in w.prunes { ProtectedIsNotHeld(t, w, s.prune, j); }
    CompletedRowKept(t, w, s, j);
    ProtectedDirKept(t, w, s, j);
  }

  lemma WindowStays(t: Tools, w: World, s: Step, kb: KbId)
    requires Inv(t, w) && Fits(w, s) && kb in Apply(t, w, s).kbs
    ensures Window(w.jobs, kb) <= CompletedIds(Apply(t, w, s).jobs, kb)
  {
    forall j | j in Window(w.jobs, kb) ensures j in CompletedIds(Apply(t, w, s).jobs, kb) {
      WindowKept(t, w, s, kb, j);
    }
  }

  /** What `resolve_knowledge_base` serves moves only to a newer job. */
  predicate NotBack(before: Option<JobId>, after: Option<JobId>) {
    before.Some? ==> after.Some? && after.value >= before.value
  }

  lemma LiveNeverGoesBack(t: Tools, w: World, s: Step, kb: KbId)
    requires Inv(t, w) && Fits(w, s) && kb in Apply(t, w, s).kbs
    ensures NotBack(Live(w.jobs, kb), Live(Apply(t, w, s).jobs, kb))
  {
    WindowStays(t, w, s, kb);
    if Live(w.jobs, kb).Some? {
      assert Live(w.jobs, kb).value in CompletedIds(Apply(t, w, s).jobs, kb);
    }
  }

  /** Two newer generations have completed: a job with this id is not in the window. */
  ghost predicate Outranked(w: World, kb: KbId, j: JobId) {
    exists a, b :: a in CompletedIds(w.jobs, kb) && b in CompletedIds(w.jobs, kb) && a > b > j
  }

  lemma OutrankedIsOutside(w: World, kb: KbId, j: JobId)
    ensures j in CompletedIds(w.jobs, kb) ==> (Outranked(w, kb, j) <==> j !in Window(w.jobs, kb))
    ensures Outranked(w, kb, j) ==> j !in Window(w.jobs, kb)
  {
    WindowIsTopTwo(w.jobs, kb, j);
    if j in CompletedIds(w.jobs, kb) && j !in Window(w.jobs, kb) {
      var a, b :| a in CompletedIds(w.jobs, kb) && b in CompletedIds(w.jobs, kb) && a > j && b > j && a != b;
      if a > b { assert a > b > j; } else { assert b > a > j; }
    }
  }

  lemma OutrankedStays(t: Tools, w: World, s: Step, kb: KbId, j: JobId)
    requires Inv(t, w) && Fits(w, s) && kb in Apply(t, w, s).kbs && Outranked(w, kb, j)
    ensures Outranked(Apply(t, w, s), kb, j)
  {
    WindowStays(t, w, s, kb);
    WindowOutranks(w, kb, j);
  }

  lemma WindowOutranks(w: World, kb: KbId, j: JobId)
    requires Outranked(w, kb, j)
    ensures exists a, b :: a in Window(w.jobs, kb) && b in Window(w.jobs, kb) && a > b > j
  {
    var a, b :| a in CompletedIds(w.jobs, kb) && b in CompletedIds(w.jobs, kb) && a > b > j;
    var live := Live(w.jobs, kb).value;
    assert live >= a && b in CompletedIds(w.jobs, kb) - {live};
    var previous := Previous(w.jobs, kb).value;
    assert live > previous >= b;
    assert live in Window(w.jobs, kb) && previous in Window(w.jobs, kb);
  }

  // ------------------------------------------------------------------ histories

  function Run(t: Tools, w: World, steps: seq<Step>): World
    decreases |steps|
  {
    if steps == [] then w else Run(t, Apply(t, w, steps[0]), steps[1..])
  }

  predicate RunFits(t: Tools, w: World, steps: seq<Step>)
    decreases |steps|
  {
    steps == [] || (Fits(w, steps[0]) && RunFits(t, Apply(t, w, steps[0]), steps[1..]))
  }

  /** The collection is not deleted on the way. */
  predicate Survives(t: Tools, w: World, steps: seq<Step>, kb: KbId)
    decreases |steps|
  {
    kb in w.kbs && (steps == [] || Survives(t, Apply(t, w, steps[0]), steps[1..], kb))
  }

  const EMPTY: World := World(2, map[], map[], map[], map[], {}, map[], map[], {})

  lemma RunOne(t: Tools, w: World, s: Step)
    ensures Run(t, w, [s]) == Apply(t, w, s) && (RunFits(t, w, [s]) <==> Fits(w, s))
  {
    assert [s][1..] == [];
  }

  lemma {:induction false} RunsOn(t: Tools, w: World, a: seq<Step>, b: seq<Step>)
    requires RunFits(t, w, a) && RunFits(t, Run(t, w, a), b)
    ensures RunFits(t, w, a + b) && Run(t, w, a + b) == Run(t, Run(t, w, a), b)
    decreases |a|
  {
    if a == [] {
      assert a + b == b;
    } else {
      assert (a + b)[1..] == a[1..] + b && (a + b)[0] == a[0];
      RunsOn(t, Apply(t, w, a[0]), a[1..], b);
    }
  }

  lemma {:induction false} RunKeeps(t: Tools, w: World, steps: seq<Step>)
    requires Inv(t, w) && CollisionFree(t) && RunFits(t, w, steps)
    ensures Inv(t, Run(t, w, steps))
    decreases |steps|
  {
    if steps != [] {
      StepKeeps(t, w, steps[0]);
      RunKeeps(t, Apply(t, w, steps[0]), steps[1..]);
    }
  }

  /** No job, document or chunk ever names a collection or job that is gone; each directory
      belongs to one job; every protected job has its files; every completed job has one document
      per staged file. For the references of runs see `CollectionReferences`. */
  lemma EveryHistoryIsSound(t: Tools, steps: seq<Step>)
    requires CollisionFree(t) && RunFits(t, EMPTY, steps)
    ensures Inv(t, Run(t, EMPTY, steps))
    ensures var w := Run(t, EMPTY, steps);
      && (forall j :: j in w.jobs ==> w.jobs[j].kb in w.kbs)
      && (forall j :: j in w.docs ==> j in w.jobs && w.docs[j].kb in w.kbs)
      && (forall i, j :: i in w.jobs && j in w.jobs && w.jobs[i].version == w.jobs[j].version ==> i == j)
      && (forall j :: j in w.jobs && Protected(w, j) ==> HasDir(w, j))
      && (forall j :: j in w.jobs && w.jobs[j].status == Completed ==> w.jobs[j].succeeded + w.jobs[j].failed == w.jobs[j].fileCount)
  {
    RunKeeps(t, EMPTY, steps);
    var w := Run(t, EMPTY, steps);
    forall j | j in w.jobs ensures JobInv(t, w, j) {}
  }

  lemma {:induction false} LiveNeverGoesBackInAnyRun(t: Tools, w: World, steps: seq<Step>, kb: KbId)
    requires Inv(t, w) && CollisionFree(t) && RunFits(t, w, steps) && Survives(t, w, steps, kb)
    ensures NotBack(Live(w.jobs, kb), Live(Run(t, w, steps).jobs, kb))
    decreases |steps|
  {
    if steps != [] {
      StepKeeps(t, w, steps[0]);
      LiveNeverGoesBack(t, w, steps[0], kb);
      LiveNeverGoesBackInAnyRun(t, Apply(t, w, steps[0]), steps[1..], kb);
    }
  }

  /** Once outside the window, a generation never re-enters it. */
  lemma {:induction false} OutrankedForEver(t: Tools, w: World, steps: seq<Step>, kb: KbId, j: JobId)
    requires Inv(t, w) && CollisionFree(t) && RunFits(t, w, steps) && Survives(t, w, steps, kb)
    requires Outranked(w, kb, j)
    ensures Outranked(Run(t, w, steps), kb, j) && j !in Window(Run(t, w, steps).jobs, kb)
    decreases |steps|
  {
    if steps == [] {
      OutrankedIsOutside(w, kb, j);
    } else {
      StepKeeps(t, w, steps[0]);
      OutrankedStays(t, w, steps[0], kb, j);
      OutrankedForEver(t, Apply(t, w, steps[0]), steps[1..], kb, j);
    }
  }

  /** So in a reachable state a restore, a removal or a retry that gets as far as looking for
      files always finds them. */
  lemma FilesAreNeverGone(t: Tools, w: World, kb: KbId, file: Name, id: JobId, v: Version)
    requires Inv(t, w)
    ensures Restore(t, w, kb, id, v) != Refused(FilesGone)
    ensures RemoveDocument(t, w, kb, file, id, v) != Refused(FilesGone)
    ensures Retry(w, kb, id) != Refused(FilesGone)
  {
    forall j | j in w.jobs && Protected(w, j) ensures HasDir(w, j) { assert JobInv(t, w, j); }
    RestoreFinds(t, w, kb, id, v);
    RemoveFinds(t, w, kb, file, id, v);
    RetryFinds(t, w, kb, id);
  }

  lemma RestoreFinds(t: Tools, w: World, kb: KbId, id: JobId, v: Version)
    requires forall j :: j in w.jobs && Protected(w, j) ==> HasDir(w, j)
    ensures Restore(t, w, kb, id, v) != Refused(FilesGone)
  {}

  lemma RemoveFinds(t: Tools, w: World, kb: KbId, file: Name, id: JobId, v: Version)
    requires forall j :: j in w.jobs && Protected(w, j) ==> HasDir(w, j)
    ensures RemoveDocument(t, w, kb, file, id, v) != Refused(FilesGone)
  {}

  lemma RetryFinds(t: Tools, w: World, kb: KbId, id: JobId)
    requires forall j :: j in w.jobs && Protected(w, j) ==> HasDir(w, j)
    ensures Retry(w, kb, id) != Refused(FilesGone)
  {}
}
