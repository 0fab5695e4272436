/** The requests, the worker's bookkeeping and the prunes as the code runs them: updates in
    place, file by file and row by row, each proved equal to the one-step specification. */
module CollectionStore {
  import opened Basics
  import opened Ingestion
  import opened Collections
  import C = Collections
  import R = CollectionRestore

  /** Removing one version directory after another, and a generation's rows with it. */
  function WithoutOne(w: World, j: JobId, cited: bool): World
    requires j in w.jobs
  {
    if cited
    then w.(dirs := w.dirs - {w.jobs[j].version}, docs := if j in w.docs then w.docs[j := NullRows(w.docs[j])] else w.docs)
    else w.(dirs := w.dirs - {w.jobs[j].version}, docs := w.docs - {j}, jobs := w.jobs - {j})
  }

  /** A prune part-way through its list. */
  function PrunedSoFar(w: World, done: set<JobId>): World {
    PruneRows(w, done, done * Referenced(w.refs), VersionsOf(w.jobs, done))
  }

  lemma PruneStep(w: World, done: set<JobId>, j: JobId)
    requires j in w.jobs && j !in done
    ensures j in PrunedSoFar(w, done).jobs && PrunedSoFar(w, done).jobs[j] == w.jobs[j]
    ensures PrunedSoFar(w, done + {j}) == WithoutOne(PrunedSoFar(w, done), j, j in Referenced(w.refs))
  {
    assert VersionsOf(w.jobs, done + {j}) == VersionsOf(w.jobs, done) + {w.jobs[j].version};
    var a, b := PrunedSoFar(w, done + {j}), WithoutOne(PrunedSoFar(w, done), j, j in Referenced(w.refs));
    assert a.dirs == b.dirs;
    assert a.jobs == b.jobs;
    PruneStepDocs(w, done, j);
  }

  lemma PruneStepDocs(w: World, done: set<JobId>, j: JobId)
    requires j in w.jobs && j !in done
    ensures PrunedSoFar(w, done + {j}).docs == WithoutOne(PrunedSoFar(w, done), j, j in Referenced(w.refs)).docs
  {}

  lemma PruneStart(w: World)
    ensures PrunedSoFar(w, {}) == w
  {}

  /** The candidate has chunks to hand on under this name and hash. */
  predicate Supplies(rows: map<Name, Doc>, name: Name, hash: Hash) {
    name in rows && rows[name].Chunked? && rows[name].chunks != [] && rows[name].hash == hash
  }

  function Supplied(rows: map<Name, Doc>, reuse: Reuse, k: (Name, Hash)): seq<Chunk> {
    if k in reuse then reuse[k] else if Supplies(rows, k.0, k.1) then rows[k.0].chunks else []
  }

  lemma KeyedSupplies(rows: map<Name, Doc>, reuse: Reuse, result: Reuse)
    requires forall k :: k in result <==> k in reuse || Supplies(rows, k.0, k.1)
    requires forall k :: k in result ==> result[k] == Supplied(rows, reuse, k)
    ensures result == Keyed(rows) + reuse
  {}

  /** One candidate's documents: an entry a newer job supplied is never replaced. */
  method AddCandidate(rows: map<Name, Doc>, reuse: Reuse) returns (result: Reuse)
    ensures result == Keyed(rows) + reuse
  {
    result := reuse;
    var left := rows.Keys;
    while left != {}
      invariant left <= rows.Keys
      invariant forall k :: k in result <==> k in reuse || (k.0 !in left && Supplies(rows, k.0, k.1))
      invariant forall k :: k in result ==> result[k] == Supplied(rows, reuse, k)
      decreases left
    {
      var n :| n in left;
      left := left - {n};
      var key := (n, rows[n].hash);
      if rows[n].Chunked? && rows[n].chunks != [] && key !in result {
        result := result[key := rows[n].chunks];
      }
    }
    KeyedSupplies(rows, reuse, result);
  }

  function Looked(w: World, r: Request): Request { r.(source := LiveVersion(w, r.kb)) }

  class Store {
    var rev: int
    var kbs: map<KbId, Config>
    var jobs: map<JobId, Job>
    var docs: map<JobId, RowSet>
    var dirs: map<Version, Dir>
    var refs: set<(RunId, JobId)>
    var workers: map<JobId, Worker>
    var prunes: map<PruneId, Prune>
    var checks: set<(RunId, JobId)>

    function State(): World
      reads this
    {
      World(rev, kbs, jobs, docs, dirs, refs, workers, prunes, checks)
    }

    /** `_stage_previous_generation`: the surviving files of one directory, copied one by one. */
    method Stage(t: Tools, source: Version, superseded: set<Name>, exact: bool) returns (copied: map<Name, Data>)
      ensures copied == Carried(t, DirFiles(State(), source), superseded, exact)
    {
      var files := if source in dirs then dirs[source].files else map[];
      copied := map[];
      var left := files.Keys;
      while left != {}
        invariant left <= files.Keys
        invariant copied == map n | n in Carried(t, files, superseded, exact) && n !in left :: files[n]
        decreases left
      {
        var n :| n in left;
        left := left - {n};
        var clash := exists s :: s in superseded && (if exact then s == n else t.fold(s) == t.fold(n));
        if !clash {
          copied := copied[n := files[n]];
        }
      }
    }

    /** Writing the staged directory and the queued row that owns it. */
    method Enqueue(id: JobId, kb: KbId, v: Version, shape: Shape, files: map<Name, Data>)
      modifies this
      ensures State() == WithJob(old(State()), id, kb, v, shape, files)
    {
      dirs := dirs[v := Dir(kb, files)];
      jobs := jobs[id := NewJob(kb, v, shape, files)];
    }

    /** `upload_knowledge_base`, when nothing commits between its query and its commit. */
    method UploadKnowledgeBase(t: Tools, r: Request) returns (refusal: Option<Refusal>)
      modifies this
      ensures State() == OrElse(C.Upload(t, old(State()), Looked(old(State()), r)), old(State()))
      ensures refusal == (match C.Upload(t, old(State()), Looked(old(State()), r)) case Refused(why) => Some(why) case Accepted(_) => None)
    {
      if r.files == map[] {
        return Some(NoFiles);
      }
      ghost var w := State();
      var staged := map[];
      if r.add && r.kb in kbs {
        var live := Live(jobs, r.kb);
        if live.Some? && jobs[live.value].version in dirs {
          staged := Stage(t, jobs[live.value].version, r.files.Keys, false);
          if |r.files| + |staged| > r.maxDocuments {
            return Some(TooManyDocuments);
          }
        }
      }
      assert staged == AddCarried(t, w, Looked(w, r));
      var shape := RequestShape(State(), r);
      kbs := kbs[r.kb := Config(shape.kbType, shape.model, r.size, r.overlap)];
      Enqueue(r.job, r.kb, r.version, shape, staged + r.files);
      return None;
    }

    method RestorePreviousGeneration(t: Tools, kb: KbId, id: JobId, v: Version) returns (refusal: Option<Refusal>)
      modifies this
      ensures State() == OrElse(C.Restore(t, old(State()), kb, id, v), old(State()))
      ensures refusal == (match C.Restore(t, old(State()), kb, id, v) case Refused(why) => Some(why) case Accepted(_) => None)
    {
      if kb !in kbs { return Some(UnknownCollection); }
      if AnyInFlight(jobs, kb) { return Some(StillProcessing); }
      var previous := Previous(jobs, kb);
      if previous.None? { return Some(NoEarlierUpload); }
      var source := jobs[previous.value];
      if source.version !in dirs { return Some(FilesGone); }
      var staged := Stage(t, source.version, {}, false);
      if |staged| > MAX_DOCUMENTS_PER_KB { return Some(TooManyDocuments); }
      Enqueue(id, kb, v, JobShape(source, kbs[kb]), staged);
      return None;
    }

    method RemoveKnowledgeBaseDocument(t: Tools, kb: KbId, file: Name, id: JobId, v: Version) returns (refusal: Option<Refusal>)
      modifies this
      ensures State() == OrElse(C.RemoveDocument(t, old(State()), kb, file, id, v), old(State()))
      ensures refusal == (match C.RemoveDocument(t, old(State()), kb, file, id, v) case Refused(why) => Some(why) case Accepted(_) => None)
    {
      if kb !in kbs { return Some(UnknownCollection); }
      if AnyInFlight(jobs, kb) { return Some(StillProcessing); }
      var live := Live(jobs, kb);
      if live.None? { return Some(NoFinishedUpload); }
      var rows := if live.value in docs then docs[live.value].rows else map[];
      if file !in rows { return Some(NoSuchDocument); }
      if Readable(rows) - {file} == {} { return Some(OnlyReadableDocument); }
      var source := jobs[live.value];
      if source.version !in dirs { return Some(FilesGone); }
      var staged := Stage(t, source.version, {file}, true);
      if 1 + |staged| > MAX_DOCUMENTS_PER_KB { return Some(TooManyDocuments); }
      Enqueue(id, kb, v, JobShape(source, kbs[kb]), staged);
      return None;
    }

    /** `_reusable_documents`, when nothing commits between its queries. */
    method ReusableDocuments(id: JobId, kb: KbId, shape: Shape) returns (reuse: Reuse)
      ensures reuse == R.Merged(State(), Candidates(State(), id, kb), map[], shape)
    {
      var candidates := Candidates(State(), id, kb);
      reuse := map[];
      for i := 0 to |candidates|
        invariant R.Merged(State(), candidates, map[], shape) == R.Merged(State(), candidates[i..], reuse, shape)
      {
        assert candidates[i..][1..] == candidates[i + 1..];
        var c := candidates[i];
        if Carryable(c.job, shape, rev) && c.id in docs {
          reuse := AddCandidate(docs[c.id].rows, reuse);
        } else {
          assert map[] + reuse == reuse;
        }
      }
    }

    method RetryIngestionJob(kb: KbId, id: JobId) returns (refusal: Option<Refusal>)
      modifies this
      ensures State() == OrElse(C.Retry(old(State()), kb, id), old(State()))
      ensures refusal == (match C.Retry(old(State()), kb, id) case Refused(why) => Some(why) case Accepted(_) => None)
    {
      if kb !in kbs { return Some(UnknownCollection); }
      if id !in jobs || jobs[id].kb != kb { return Some(UnknownJob); }
      if AnyInFlight(jobs, kb) { return Some(StillProcessing); }
      if jobs[id].status != FailedJob { return Some(NotFailed); }
      if exists k :: k in jobs && jobs[k].kb == kb && k > id { return Some(NewerUpload); }
      if jobs[id].version !in dirs { return Some(FilesGone); }
      docs := docs - {id};
      jobs := jobs[id := jobs[id].(status := Queued, succeeded := 0, failed := 0)];
      return None;
    }

    method DeleteKnowledgeBase(kb: KbId, used: bool, removed: bool) returns (refusal: Option<Refusal>)
      modifies this
      ensures State() == OrElse(C.Delete(old(State()), kb, used, removed), old(State()))
      ensures refusal == (match C.Delete(old(State()), kb, used, removed) case Refused(why) => Some(why) case Accepted(_) => None)
    {
      if kb !in kbs { return Some(UnknownCollection); }
      if used { return Some(UsedByTeams); }
      if AnyInFlight(jobs, kb) { return Some(StillProcessing); }
      refs := set r | r in refs && r.1 !in JobsOf(jobs, kb);
      docs := map j | j in docs && docs[j].kb != kb :: docs[j];
      jobs := jobs - JobsOf(jobs, kb);
      kbs := kbs - {kb};
      if removed {
        dirs := map v | v in dirs && dirs[v].kb != kb :: dirs[v];
      }
      return None;
    }

    /** `_prune_old_ingestion_versions`, when nothing commits between its queries and its own
        commit: one old generation after another. */
    method PruneOldVersions(kb: KbId)
      modifies this
      ensures State() == C.PruneOld(old(State()), kb)
    {
      ghost var w := State();
      var outside := Old(jobs, kb);
      var left := outside;
      PruneStart(w);
      while left != {}
        invariant left <= outside <= w.jobs.Keys && refs == w.refs
        invariant State() == PrunedSoFar(w, outside - left)
        decreases left
      {
        var j :| j in left;
        PruneStep(w, outside - left, j);
        assert outside - left + {j} == outside - (left - {j});
        left := left - {j};
        dirs := dirs - {jobs[j].version};
        if j in Referenced(refs) {
          if j in docs {
            docs := docs[j := NullRows(docs[j])];
          }
        } else {
          docs := docs - {j};
          jobs := jobs - {j};
        }
      }
      assert outside - left == outside;
    }

    /** `_prune_failed_ingestion_versions`: every failed job's directory but the newest one's
        and the caller's own. */
    method PruneFailedVersions(kb: KbId, current: JobId)
      modifies this`dirs
      ensures State() == C.PruneFailed(old(State()), kb, current)
    {
      ghost var all := dirs;
      var failed := FailedIds(jobs, kb);
      var newest := Newest(failed);
      var superseded := failed - (if newest.Some? then {newest.value} else {});
      var left := superseded;
      assert dirs == all - VersionsOf(jobs, {}) by { assert VersionsOf(jobs, {}) == {}; }
      assert superseded - left - {current} == {};
      while left != {}
        invariant left <= superseded <= jobs.Keys
        invariant dirs == all - VersionsOf(jobs, superseded - left - {current})
        decreases left
      {
        var j :| j in left;
        ghost var done := superseded - left - {current};
        left := left - {j};
        if j != current {
          dirs := dirs - {jobs[j].version};
          assert superseded - left - {current} == done + {j};
          assert VersionsOf(jobs, done + {j}) == VersionsOf(jobs, done) + {jobs[j].version};
        } else {
          assert superseded - left - {current} == done;
        }
      }
      assert superseded - left - {current} == superseded - {current};
    }
  }
}
