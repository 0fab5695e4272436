/** What an add finds of the generation it looked up, when other threads commit in between. */
module CollectionAdds {
  import opened Basics
  import opened Ingestion
  import opened Collections
  import opened CollectionInvariant
  import opened CollectionSteps
  import opened CollectionHistory
  import opened CollectionRequests
  import opened CollectionWhole

  /** The collection's lock is held: no other request of it comes. */
  predicate LeavesAlone(s: Step, kb: KbId) {
    match s
    case DoUpload(r) => r.kb != kb
    case DoRemove(k, _, _, _) => k != kb
    case DoRestore(k, _, _) => k != kb
    case DoRetry(k, _) => k != kb
    case DoDelete(k, _, _) => k != kb
    case _ => true
  }

  predicate Locked(steps: seq<Step>, kb: KbId) { forall i :: 0 <= i < |steps| ==> LeavesAlone(steps[i], kb) }

  // ------------------------------------------------------------------ what was looked up

  /** A generation's files are where they were for as long as it is one of the two newest, so
      whenever it still is. */
  lemma {:induction false} SourceStays(t: Tools, w: World, steps: seq<Step>, kb: KbId, j: JobId)
    requires Inv(t, w) && CollisionFree(t) && RunFits(t, w, steps) && Survives(t, w, steps, kb)
    requires j in Window(w.jobs, kb) && j in Window(Run(t, w, steps).jobs, kb)
    ensures Kept(w, Run(t, w, steps), j)
    decreases |steps|
  {
    if steps != [] {
      var w1 := Apply(t, w, steps[0]);
      StepKeeps(t, w, steps[0]);
      WindowKept(t, w, steps[0], kb, j);
      WindowStays(t, w, steps[0], kb);
      OutrankedIsOutside(w1, kb, j);
      if j !in Window(w1.jobs, kb) {
        OutrankedForEver(t, w1, steps[1..], kb, j);
      } else {
        SourceStays(t, w1, steps[1..], kb, j);
      }
    }
  }

  // ------------------------------------------------------------------ no job in flight

  predicate Settled(w: World, kb: KbId) { !AnyInFlight(w.jobs, kb) }

  lemma StaysSettled(t: Tools, w: World, s: Step, kb: KbId)
    requires Inv(t, w) && Fits(w, s) && Settled(w, kb) && LeavesAlone(s, kb)
    ensures Settled(Apply(t, w, s), kb) && (kb in Apply(t, w, s).kbs <==> kb in w.kbs)
  {
    if IsWork(s) {
      if Apply(t, w, s).jobs != w.jobs { WorkIsOneRow(t, w, s); }
    } else {
      NotWorkSettled(t, w, s, kb);
    }
  }

  lemma NotWorkSettled(t: Tools, w: World, s: Step, kb: KbId)
    requires !IsWork(s) && Settled(w, kb) && LeavesAlone(s, kb)
    ensures Settled(Apply(t, w, s), kb) && (kb in Apply(t, w, s).kbs <==> kb in w.kbs)
  {}

  lemma NothingCompletes(t: Tools, w: World, s: Step, kb: KbId)
    requires Inv(t, w) && Fits(w, s) && Settled(w, kb)
    ensures CompletedIds(Apply(t, w, s).jobs, kb) <= CompletedIds(w.jobs, kb)
  {
    forall j | j in CompletedIds(Apply(t, w, s).jobs, kb) ensures j in CompletedIds(w.jobs, kb) {
      OnlyFinishCompletes(t, w, s, j);
      if s.DoFinish? && ReadyToFinish(w, s.job) { assert WorkerInv(t, w, s.job); }
    }
  }

  predicate SameLive(w: World, w': World, kb: KbId) {
    && LiveVersion(w', kb) == LiveVersion(w, kb)
    && (LiveVersion(w, kb).Some? ==> DirFiles(w', LiveVersion(w, kb).value) == DirFiles(w, LiveVersion(w, kb).value))
  }

  lemma SameNewest(ids: set<JobId>, ids': set<JobId>)
    requires ids' <= ids && (ids != {} ==> Newest(ids).value in ids')
    ensures Newest(ids') == Newest(ids)
  {}

  lemma LiveIsKept(t: Tools, w: World, s: Step, kb: KbId)
    requires Inv(t, w) && Fits(w, s) && Live(w.jobs, kb).Some? && kb in Apply(t, w, s).kbs
    ensures var live := Live(w.jobs, kb).value; live in CompletedIds(Apply(t, w, s).jobs, kb) && HasDir(w, live) && Kept(w, Apply(t, w, s), live)
  {
    var live := Live(w.jobs, kb).value;
    WindowKept(t, w, s, kb, live);
    assert JobInv(t, w, live) && Protected(w, live);
  }

  /** So the live generation and its files stay as they are. */
  lemma LiveStays(t: Tools, w: World, s: Step, kb: KbId)
    requires Inv(t, w) && Fits(w, s) && Settled(w, kb) && LeavesAlone(s, kb)
    ensures SameLive(w, Apply(t, w, s), kb)
  {
    StaysSettled(t, w, s, kb);
    if kb in w.kbs {
      NothingCompletes(t, w, s, kb);
      if Live(w.jobs, kb).Some? { LiveIsKept(t, w, s, kb); }
      SameNewest(CompletedIds(w.jobs, kb), CompletedIds(Apply(t, w, s).jobs, kb));
    }
  }

  lemma {:induction false} LiveStaysThroughout(t: Tools, w: World, steps: seq<Step>, kb: KbId)
    requires Inv(t, w) && CollisionFree(t) && RunFits(t, w, steps) && Settled(w, kb) && Locked(steps, kb)
    ensures SameLive(w, Run(t, w, steps), kb)
    decreases |steps|
  {
    if steps != [] {
      StepKeeps(t, w, steps[0]);
      StaysSettled(t, w, steps[0], kb);
      LiveStays(t, w, steps[0], kb);
      LiveStaysThroughout(t, Apply(t, w, steps[0]), steps[1..], kb);
    }
  }

  /** An add that looked while its collection had no job in flight stages, beside its own files,
      each file of the generation that is live when it commits, whatever came between. */
  lemma AddStagesLive(t: Tools, w0: World, steps: seq<Step>, r: Request, n: Name)
    requires Inv(t, w0) && CollisionFree(t) && RunFits(t, w0, steps) && Settled(w0, r.kb) && Locked(steps, r.kb)
    requires r.add && r.source == LiveVersion(w0, r.kb) && Upload(t, Run(t, w0, steps), r).Accepted?
    ensures var w := Run(t, w0, steps); var w' := Upload(t, w, r).world;
      var live := if LiveVersion(w, r.kb).Some? then DirFiles(w, LiveVersion(w, r.kb).value) else map[];
      && r.version in w'.dirs
      && (n in w'.dirs[r.version].files <==> n in r.files || (n in live && !Clashes(t, r.files.Keys, n)))
      && (n in w'.dirs[r.version].files && n !in r.files ==> w'.dirs[r.version].files[n] == live[n])
  {
    LiveStaysThroughout(t, w0, steps, r.kb);
    UploadStagesExactly(t, Run(t, w0, steps), r, n);
  }

  /** With jobs in flight it need not: once two of them have completed and a prune has removed the
      directory it looked up, an add stages its own files alone, and nobody is told. */
  lemma LateAddStagesItsOwn(t: Tools, w: World, p: PruneId, r: Request)
    requires Inv(t, w) && p in w.prunes && r.source.Some? && r.source.value in Doomed(w.prunes[p])
    requires Upload(t, DropDir(w, p, r.source.value), r).Accepted?
    ensures var w' := Upload(t, DropDir(w, p, r.source.value), r).world; r.version in w'.dirs && w'.dirs[r.version].files == r.files
    ensures forall j :: j in w.jobs && w.jobs[j].version == r.source.value && w.jobs[j].status == Completed ==> Outranked(w, w.jobs[j].kb, j)
  {
    var w1 := DropDir(w, p, r.source.value);
    UploadedWorld(t, w1, r);
    assert map[] + r.files == r.files;
    assert PruneInv(w, w.prunes[p]);
    forall j | j in w.jobs && w.jobs[j].version == r.source.value && w.jobs[j].status == Completed ensures Outranked(w, w.jobs[j].kb, j) {
      OutrankedIsOutside(w, w.jobs[j].kb, j);
    }
  }
}
