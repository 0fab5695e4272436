/** Which schedules keep every vector: those whose reads come while the candidate is still in
    the window, and so those in which a collection never has two jobs in flight. */
module CollectionAlone {
  import opened Basics
  import opened Ingestion
  import opened Collections
  import opened CollectionInvariant
  import opened CollectionSteps
  import opened CollectionHistory
  import opened CollectionWhole

  // ------------------------------------------------------------------ reads in the window

  /** A candidate about to be read is still one of the two newest. */
  predicate ReadsInWindow(w: World, s: Step) {
    s.DoLoadNext? && Reading(w, s.job) ==> w.workers[s.job].phase.todo[0].id in Window(w.jobs, w.workers[s.job].kb)
  }

  predicate RunReadsInWindow(t: Tools, w: World, steps: seq<Step>)
    decreases |steps|
  {
    steps == [] || (ReadsInWindow(w, steps[0]) && RunReadsInWindow(t, Apply(t, w, steps[0]), steps[1..]))
  }

  lemma {:induction false} WindowRunsReadWell(t: Tools, w: World, steps: seq<Step>)
    requires Inv(t, w) && CollisionFree(t) && Whole(w) && RunFits(t, w, steps) && RunReadsInWindow(t, w, steps)
    ensures RunReadsWell(t, w, steps)
    decreases |steps|
  {
    if steps != [] {
      if steps[0].DoLoadNext? && Reading(w, steps[0].job) { WindowReadsWell(t, w, steps[0].job); }
      StepKeeps(t, w, steps[0]);
      WholeKeeps(t, w, steps[0]);
      WindowRunsReadWell(t, Apply(t, w, steps[0]), steps[1..]);
    }
  }

  // ------------------------------------------------------------------ one job at a time

  /** At most one job of a collection is queued or running. */
  predicate Alone(jobs: map<JobId, Job>) {
    forall i, j :: i in jobs && j in jobs && jobs[i].kb == jobs[j].kb && InFlight(jobs[i]) && InFlight(jobs[j]) ==> i == j
  }

  /** An upload comes only while its collection has no job in flight, as the customer endpoints
      see to; a removal, a restore and a retry see to it themselves. */
  predicate Guarded(w: World, s: Step) {
    s.DoUpload? ==> !AnyInFlight(w.jobs, s.request.kb)
  }

  predicate RunGuarded(t: Tools, w: World, steps: seq<Step>)
    decreases |steps|
  {
    steps == [] || (Guarded(w, steps[0]) && RunGuarded(t, Apply(t, w, steps[0]), steps[1..]))
  }

  lemma RequestAlone(t: Tools, w: World, s: Step)
    requires IsRequest(s) && Alone(w.jobs) && Guarded(w, s)
    ensures Alone(Apply(t, w, s).jobs)
  {}

  lemma AloneKeeps(t: Tools, w: World, s: Step)
    requires Inv(t, w) && Alone(w.jobs) && Guarded(w, s)
    ensures Alone(Apply(t, w, s).jobs)
  {
    if IsRequest(s) {
      RequestAlone(t, w, s);
    } else {
      assert forall i :: i in w.workers ==> WorkerInv(t, w, i);
      WorkAlone(t, w, s);
    }
  }

  lemma WorkAlone(t: Tools, w: World, s: Step)
    requires !IsRequest(s) && Alone(w.jobs) && forall i :: i in w.workers && i in w.jobs ==> InFlight(w.jobs[i])
    ensures Alone(Apply(t, w, s).jobs)
  {}

  /** While a collection's one job is at work, nothing of it completes. */
  lemma NothingCompletes(t: Tools, w: World, s: Step, id: JobId)
    requires Inv(t, w) && Fits(w, s) && Alone(w.jobs) && id in w.workers && id in Apply(t, w, s).workers
    ensures CompletedIds(Apply(t, w, s).jobs, w.workers[id].kb) <= CompletedIds(w.jobs, w.workers[id].kb)
  {
    var kb := w.workers[id].kb;
    assert WorkerInv(t, w, id);
    forall j | j in CompletedIds(Apply(t, w, s).jobs, kb) ensures j in CompletedIds(w.jobs, kb) {
      OnlyFinishCompletes(t, w, s, j);
      if s.DoFinish? && ReadyToFinish(w, s.job) { assert WorkerInv(t, w, s.job); }
    }
  }

  /** So nothing leaves its window. */
  lemma WindowHolds(t: Tools, w: World, s: Step, id: JobId, j: JobId)
    requires Inv(t, w) && CollisionFree(t) && Fits(w, s) && Alone(w.jobs) && id in w.workers && id in Apply(t, w, s).workers
    requires w.workers[id].kb in Apply(t, w, s).kbs && j in Window(w.jobs, w.workers[id].kb)
    ensures j in Window(Apply(t, w, s).jobs, w.workers[id].kb)
  {
    var w', kb := Apply(t, w, s), w.workers[id].kb;
    NothingCompletes(t, w, s, id);
    WindowStays(t, w, s, kb);
    WindowIsTopTwo(w.jobs, kb, j);
    WindowIsTopTwo(w'.jobs, kb, j);
  }

  /** Everything a worker has still to read is in its window. */
  predicate TodoInWindow(w: World, id: JobId)
    requires id in w.workers
  {
    w.workers[id].phase.Loading? ==> forall c :: c in w.workers[id].phase.todo ==> c.id in Window(w.jobs, w.workers[id].kb)
  }

  ghost predicate TodosInWindow(w: World) { forall id :: id in w.workers ==> TodoInWindow(w, id) }

  /** The worker has nothing to read that it had not before. */
  predicate Shrinks(w: World, w': World, id: JobId)
    requires id in w'.workers && w'.workers[id].phase.Loading?
  {
    && id in w.workers && w.workers[id].phase.Loading? && w.workers[id].kb == w'.workers[id].kb
    && forall c :: c in w'.workers[id].phase.todo ==> c in w.workers[id].phase.todo
  }

  lemma LoadNextShrinks(w: World, job: JobId, id: JobId)
    requires id in LoadNext(w, job).workers && LoadNext(w, job).workers[id].phase.Loading?
    ensures Shrinks(w, LoadNext(w, job), id)
  {}

  lemma WorkShrinks(t: Tools, w: World, s: Step, id: JobId)
    requires IsWork(s) && !s.DoLoadNext? && !(s.DoLoadCandidates? && s.job == id)
    requires id in Apply(t, w, s).workers && Apply(t, w, s).workers[id].phase.Loading?
    ensures Shrinks(w, Apply(t, w, s), id)
  {}

  /** So it is after every step but its own query. */
  lemma TodoOnlyShrinks(t: Tools, w: World, s: Step, id: JobId)
    requires id in Apply(t, w, s).workers && Apply(t, w, s).workers[id].phase.Loading? && !(s.DoLoadCandidates? && s.job == id)
    ensures Shrinks(w, Apply(t, w, s), id)
  {
    if s.DoLoadNext? {
      LoadNextShrinks(w, s.job, id);
    } else if IsWork(s) {
      WorkShrinks(t, w, s, id);
    } else if !s.DoRestart? {
      OtherWorkers(t, w, s);
    }
  }

  lemma CandidatesInWindow(w: World, id: JobId, kb: KbId)
    requires id !in CompletedIds(w.jobs, kb)
    ensures forall c :: c in Candidates(w, id, kb) ==> c.id in Window(w.jobs, kb)
  {
    assert CompletedIds(w.jobs, kb) - {id} == CompletedIds(w.jobs, kb);
  }

  lemma TodoKeeps(t: Tools, w: World, s: Step, id: JobId)
    requires Inv(t, w) && CollisionFree(t) && Fits(w, s) && Alone(w.jobs) && TodosInWindow(w) && id in Apply(t, w, s).workers
    ensures TodoInWindow(Apply(t, w, s), id)
  {
    var w' := Apply(t, w, s);
    StepKeeps(t, w, s);
    assert WorkerInv(t, w', id) && JobInv(t, w', id);
    if s == DoLoadCandidates(id) {
      if id in w.workers && w.workers[id].phase == Started {
        assert WorkerInv(t, w, id);
        CandidatesInWindow(w, id, w.workers[id].kb);
      }
    } else if w'.workers[id].phase.Loading? {
      TodoOnlyShrinks(t, w, s, id);
      forall c | c in w'.workers[id].phase.todo ensures c.id in Window(w'.jobs, w'.workers[id].kb) {
        assert TodoInWindow(w, id);
        WindowHolds(t, w, s, id, c.id);
      }
    }
  }

  lemma {:induction false} GuardedRunsReadInWindow(t: Tools, w: World, steps: seq<Step>)
    requires Inv(t, w) && CollisionFree(t) && RunFits(t, w, steps) && RunGuarded(t, w, steps) && Alone(w.jobs) && TodosInWindow(w)
    ensures RunReadsInWindow(t, w, steps)
    decreases |steps|
  {
    if steps != [] {
      var w', s := Apply(t, w, steps[0]), steps[0];
      if s.DoLoadNext? && Reading(w, s.job) { assert TodoInWindow(w, s.job); }
      StepKeeps(t, w, s);
      AloneKeeps(t, w, s);
      forall id | id in w'.workers ensures TodoInWindow(w', id) { TodoKeeps(t, w, s, id); }
      GuardedRunsReadInWindow(t, w', steps[1..]);
    }
  }

  // ------------------------------------------------------------------ the refinement again

  /** Incremental ingestion refines the from-scratch parse, vectors included, over every history
      whose reads come before the window has moved past their candidate: above all over every
      history in which an upload waits for the collection's job in flight. */
  lemma WindowedIsFromScratch(t: Tools, steps: seq<Step>, kb: KbId, j: JobId)
    requires CollisionFree(t) && RunFits(t, EMPTY, steps) && (RunReadsInWindow(t, EMPTY, steps) || RunGuarded(t, EMPTY, steps))
    requires j in Window(Run(t, EMPTY, steps).jobs, kb)
    ensures var w := Run(t, EMPTY, steps); var job := w.jobs[j];
      && Recorded(job) && HasDir(w, j) && j in w.docs
      && w.docs[j].rows == FreshRows(t, job.parserRev.value, ShapeOf(job), DirOf(w, j).files)
      && job.succeeded + job.failed == job.fileCount == |DirOf(w, j).files|
  {
    if RunGuarded(t, EMPTY, steps) { GuardedRunsReadInWindow(t, EMPTY, steps); }
    WindowRunsReadWell(t, EMPTY, steps);
    IncrementalIsFromScratch(t, steps, kb, j);
  }
}
