/** What an accepted request leaves behind, said without its steps. */
module CollectionRequests {
  import opened Basics
  import opened Ingestion
  import opened Collections
  import opened CollectionInvariant

  /** Everything but the new job, its directory and the collection's settings is as it was. */
  ghost predicate OnlyAdds(w: World, w': World, id: JobId, v: Version, kb: KbId) {
    && (forall j :: j in w'.jobs <==> j in w.jobs || j == id) && (forall j :: j in w.jobs ==> w'.jobs[j] == w.jobs[j])
    && (forall d :: d in w'.dirs <==> d in w.dirs || d == v) && (forall d :: d in w.dirs ==> w'.dirs[d] == w.dirs[d])
    && (forall k :: k in w'.kbs <==> k in w.kbs || k == kb) && (forall k :: k in w.kbs && k != kb ==> w'.kbs[k] == w.kbs[k])
    && w'.docs == w.docs && w'.refs == w.refs && w'.workers == w.workers && w'.rev == w.rev
  }

  function SourceFiles(w: World, r: Request): map<Name, Data> {
    if r.source.Some? then DirFiles(w, r.source.value) else map[]
  }

  predicate Clashes(t: Tools, names: set<Name>, n: Name) { exists s :: s in names && t.fold(s) == t.fold(n) }

  lemma UploadedWorld(t: Tools, w: World, r: Request)
    requires Upload(t, w, r).Accepted?
    ensures var shape := RequestShape(w, r);
      Upload(t, w, r).world == WithJob(w.(kbs := w.kbs[r.kb := Config(shape.kbType, shape.model, r.size, r.overlap)]),
                                       r.job, r.kb, r.version, shape, AddCarried(t, w, r) + r.files)
  {}

  lemma UploadOnlyAdds(t: Tools, w: World, r: Request)
    requires Upload(t, w, r).Accepted? && FreshIds(w, r.job, r.version)
    ensures OnlyAdds(w, Upload(t, w, r).world, r.job, r.version, r.kb)
  {
    var shape := RequestShape(w, r);
    UploadedWorld(t, w, r);
    QueuingOnlyAdds(w, Config(shape.kbType, shape.model, r.size, r.overlap), r.job, r.kb, r.version, shape, AddCarried(t, w, r) + r.files);
  }

  lemma QueuingOnlyAdds(w: World, c: Config, id: JobId, kb: KbId, v: Version, shape: Shape, files: map<Name, Data>)
    requires FreshIds(w, id, v)
    ensures OnlyAdds(w, WithJob(w.(kbs := w.kbs[kb := c]), id, kb, v, shape, files), id, v, kb)
  {}

  /** The live files an add carries: those whose name, case aside, no uploaded one supersedes. */
  lemma CarriesWhatDoesNotClash(t: Tools, files: map<Name, Data>, names: set<Name>, n: Name)
    ensures n in Carried(t, files, names, false) <==> n in files && !Clashes(t, names, n)
    ensures n in Carried(t, files, names, false) ==> Carried(t, files, names, false)[n] == files[n]
  {
    assert (exists s :: s in names && t.fold(s) == t.fold(n)) <==> Clashes(t, names, n);
  }

  lemma AddCarries(t: Tools, w: World, r: Request, n: Name)
    ensures var c := AddCarried(t, w, r);
      && (n in c <==> r.add && n in SourceFiles(w, r) && !Clashes(t, r.files.Keys, n))
      && (n in c ==> c[n] == SourceFiles(w, r)[n])
  {
    if Extends(w, r) { CarriesWhatDoesNotClash(t, SourceFiles(w, r), r.files.Keys, n); }
  }

  /** An upload stages its own files as sent; an add also stages each file of the directory its
      query named whose name, case aside, it does not supersede, and nothing else. */
  lemma UploadStagesExactly(t: Tools, w: World, r: Request, n: Name)
    requires Upload(t, w, r).Accepted?
    ensures var w' := Upload(t, w, r).world; var source := SourceFiles(w, r);
      && r.version in w'.dirs
      && var files := w'.dirs[r.version].files;
         && (n in files <==> n in r.files || (r.add && n in source && !Clashes(t, r.files.Keys, n)))
         && (n in r.files ==> files[n] == r.files[n])
         && (n in files && n !in r.files ==> files[n] == source[n])
  {
    UploadedWorld(t, w, r);
    AddCarries(t, w, r, n);
  }

  /** The job it queues asks for the request's shape, the collection's own where the request
      names none, and counts every staged file; an embedding model only for types that embed. */
  lemma UploadQueuesItsShape(t: Tools, w: World, r: Request)
    requires Upload(t, w, r).Accepted?
    ensures var w' := Upload(t, w, r).world;
      && r.job in w'.jobs && r.version in w'.dirs && r.kb in w'.kbs
      && var j := w'.jobs[r.job];
         && j.kb == r.kb && j.version == r.version && j.status == Queued && j.fileCount == |w'.dirs[r.version].files|
         && j.size == Some(r.size) && j.overlap == Some(r.overlap) && j.succeeded == 0 && j.failed == 0 && j.parserRev == None
         && (r.kbType.Some? ==> j.kbType == r.kbType.value && j.model == if Embeds(j.kbType) then r.model else None)
         && (r.kbType.None? && r.kb in w.kbs ==> j.kbType == w.kbs[r.kb].kbType && j.model == if Embeds(j.kbType) then w.kbs[r.kb].model else None)
         && w'.kbs[r.kb] == Config(j.kbType, j.model, r.size, r.overlap)
  {}

  /** A retry is the same row and directory put back in the queue, its diagnostic rows gone,
      with nothing else in the collection in flight or newer. */
  lemma RetryResetsInPlace(w: World, kb: KbId, id: JobId)
    requires Retry(w, kb, id).Accepted?
    ensures var w' := Retry(w, kb, id).world;
      && id in w.jobs && w.jobs[id].kb == kb && w.jobs[id].status == FailedJob && HasDir(w, id) && NewestOfItsCollection(w, id)
      && !AnyInFlight(w.jobs, kb)
      && w'.jobs == w.jobs[id := w.jobs[id].(status := Queued, succeeded := 0, failed := 0)]
      && id !in w'.docs && (forall j :: j != id ==> (j in w'.docs <==> j in w.docs) && (j in w.docs ==> w'.docs[j] == w.docs[j]))
      && w'.dirs == w.dirs && w'.kbs == w.kbs && w'.refs == w.refs && w'.workers == w.workers
  {}

  /** A deletion leaves nothing that names the collection, and everything that names another. */
  lemma DeleteLeavesNothing(t: Tools, w: World, kb: KbId, used: bool, removed: bool)
    requires Inv(t, w) && Delete(w, kb, used, removed).Accepted?
    ensures var w' := Delete(w, kb, used, removed).world;
      && w'.kbs == w.kbs - {kb}
      && (forall j :: j in w'.jobs <==> j in w.jobs && w.jobs[j].kb != kb)
      && (forall j :: j in w'.docs <==> j in w.docs && w.docs[j].kb != kb) && (forall j :: j in w'.docs ==> w'.docs[j] == w.docs[j] && j in w'.jobs)
      && (forall r :: r in w'.refs <==> r in w.refs && (r.1 in w.jobs ==> w.jobs[r.1].kb != kb))
      && (forall i :: i in w'.workers ==> i in w'.jobs)
  {
    assert forall j :: j in w.docs ==> JobInv(t, w, j);
    forall i | i in w.workers ensures i in w.jobs && w.jobs[i].kb != kb {
      assert WorkerInv(t, w, i);
    }
  }

  /** While a job of the collection is queued or running, nothing is removed, restored, retried
      or deleted. */
  lemma OneAtATime(t: Tools, w: World, kb: KbId, file: Name, id: JobId, v: Version, removed: bool)
    requires kb in w.kbs && AnyInFlight(w.jobs, kb)
    ensures RemoveDocument(t, w, kb, file, id, v) == Refused(StillProcessing) && Restore(t, w, kb, id, v) == Refused(StillProcessing)
    ensures Retry(w, kb, id).Refused? && Delete(w, kb, false, removed) == Refused(StillProcessing) && Delete(w, kb, true, removed).Refused?
  {}
}
