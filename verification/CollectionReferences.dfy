/** The references that keep a generation's text for a run's trace: what they keep, and the one
    interleaving -- a prune that looked before the reference came -- in which they keep nothing. */
module CollectionReferences {
  import opened Basics
  import opened Ingestion
  import opened Collections
  import opened CollectionInvariant
  import opened CollectionSteps
  import opened CollectionHistory

  // ------------------------------------------------------------------ what a prune takes

  /** A commit deletes exactly what was listed and not seen cited, whatever has come between. */
  lemma CommitTakesIff(t: Tools, w: World, p: PruneId, j: JobId)
    requires HasLooked(w, p) && j in w.jobs
    ensures j !in CommitPrune(t, w, p).jobs <==> j in Taken(w, p) && (t.keys ==> Taken(w, p) * Referenced(w.refs) == {})
    ensures j in w.docs ==> (j in CommitPrune(t, w, p).docs <==> j in CommitPrune(t, w, p).jobs)
  {}

  /** A prune nothing comes between is one step. */
  lemma UndisturbedPrune(t: Tools, w: World, p: PruneId, kb: KbId)
    requires p !in w.prunes
    ensures CommitPrune(t, LookUp(ListOld(w, p, kb), p), p) == PruneOld(w, kb)
  {
    var ids := map j | j in w.jobs && j in Old(w.jobs, kb) :: w.jobs[j].version;
    var w2 := LookUp(ListOld(w, p, kb), p);
    assert ids.Keys == Old(w.jobs, kb);
    assert w2.prunes[p] == OldPrune(ids, Some(ids.Keys * Referenced(w.refs)));
    assert w2.prunes - {p} == w.prunes;
    assert Doomed(w2.prunes[p]) == VersionsOf(w.jobs, Old(w.jobs, kb)) by { DoomedAre(w, ids, Old(w.jobs, kb)); }
    assert Taken(w2, p) * Referenced(w.refs) == {};
  }

  lemma DoomedAre(w: World, ids: map<JobId, Version>, outside: set<JobId>)
    requires ids.Keys == outside <= w.jobs.Keys && forall j :: j in ids ==> ids[j] == w.jobs[j].version
    ensures forall cited :: Doomed(OldPrune(ids, cited)) == VersionsOf(w.jobs, outside)
  {}

  // ------------------------------------------------------------------ one step

  /** The same documents, pieces and models; only vectors may have been emptied. */
  predicate SameText(a: RowSet, b: RowSet) {
    a.kb == b.kb && a.rows.Keys == b.rows.Keys && forall n :: n in a.rows ==> SameDocText(a.rows[n], b.rows[n])
  }

  predicate SameDocText(a: Doc, b: Doc) {
    && a.hash == b.hash && a.Chunked? == b.Chunked?
    && (a.Chunked? ==>
          && |a.chunks| == |b.chunks|
          && forall i :: 0 <= i < |a.chunks| ==> a.chunks[i].piece == b.chunks[i].piece && a.chunks[i].model == b.chunks[i].model)
  }

  /** A completed generation some run refers to. */
  predicate Cited(w: World, run: RunId, j: JobId) {
    (run, j) in w.refs && j in w.jobs && w.jobs[j].status == Completed && j in w.docs
  }

  /** A prune's commit that takes the generation, on a database that does not mind. */
  predicate Loses(t: Tools, w: World, s: Step, j: JobId) {
    !t.keys && s.DoCommitPrune? && HasLooked(w, s.prune) && j in Taken(w, s.prune)
  }

  lemma CitedCollectionStays(t: Tools, w: World, s: Step, run: RunId, j: JobId)
    requires Inv(t, w) && Fits(w, s) && Cited(w, run, j) && (run, j) in Apply(t, w, s).refs
    ensures w.jobs[j].kb in Apply(t, w, s).kbs
  {
    assert JobInv(t, w, j);
    if Quiet(s) {
      QuietCalm(t, w, s);
    } else if s.DoDelete? {
      if Delete(w, s.kb, s.used, s.removed).Accepted? { assert j !in JobsOf(w.jobs, s.kb); }
    }
  }

  lemma CommitKeepsText(t: Tools, w: World, p: PruneId, run: RunId, j: JobId)
    requires HasLooked(w, p) && PruneInv(w, w.prunes[p]) && Cited(w, run, j) && !Loses(t, w, DoCommitPrune(p), j)
    ensures Cited(CommitPrune(t, w, p), run, j) && SameText(w.docs[j], CommitPrune(t, w, p).docs[j])
  {
    if j in Taken(w, p) { assert j in Taken(w, p) * Referenced(w.refs); }
  }

  /** While the reference is held, a step keeps the generation's text exactly when it is not the
      commit of a prune that listed the generation and looked before the reference was there. */
  lemma CitedTextKeptIff(t: Tools, w: World, s: Step, run: RunId, j: JobId)
    requires Inv(t, w) && Fits(w, s) && Cited(w, run, j) && (run, j) in Apply(t, w, s).refs
    ensures Cited(Apply(t, w, s), run, j) && SameText(w.docs[j], Apply(t, w, s).docs[j]) <==> !Loses(t, w, s, j)
  {
    if s.DoCommitPrune? {
      if HasLooked(w, s.prune) {
        assert PruneInv(w, w.prunes[s.prune]);
        if Loses(t, w, s, j) { CommitTakesIff(t, w, s.prune, j); } else { CommitKeepsText(t, w, s.prune, run, j); }
      }
    } else {
      CitedCollectionStays(t, w, s, run, j);
      CompletedRowKept(t, w, s, j);
    }
  }

  // ------------------------------------------------------------------ any run

  /** No prune in flight has looked without seeing the generation cited. */
  predicate Seen(w: World, j: JobId) {
    forall p :: p in w.prunes && HasLooked(w, p) ==> j !in Taken(w, p)
  }

  lemma SeenStays(t: Tools, w: World, s: Step, run: RunId, j: JobId)
    requires (run, j) in w.refs && Seen(w, j)
    ensures Seen(Apply(t, w, s), j)
  {
    var w' := Apply(t, w, s);
    forall p | p in w'.prunes && HasLooked(w', p) ensures j !in Taken(w', p) {
      if p in w.prunes && HasLooked(w, p) && w'.prunes[p] == w.prunes[p] {
        assert Taken(w', p) == Taken(w, p);
      } else {
        LooksNow(t, w, s, p);
        assert (run, j).1 in Referenced(w.refs);
      }
    }
  }

  lemma LooksNow(t: Tools, w: World, s: Step, p: PruneId)
    requires p in Apply(t, w, s).prunes && HasLooked(Apply(t, w, s), p) && !(p in w.prunes && Apply(t, w, s).prunes[p] == w.prunes[p])
    ensures s == DoLookUp(p) && Taken(Apply(t, w, s), p) !! Referenced(w.refs)
  {
    if IsRequest(s) { RequestWorkers(t, w, s); }
  }

  /** The reference is not released on the way. */
  predicate Held(t: Tools, w: World, steps: seq<Step>, run: RunId, j: JobId)
    decreases |steps|
  {
    (run, j) in w.refs && (steps == [] || Held(t, Apply(t, w, steps[0]), steps[1..], run, j))
  }

  lemma {:induction false} CitedTextForEver(t: Tools, w: World, steps: seq<Step>, run: RunId, j: JobId)
    requires Inv(t, w) && CollisionFree(t) && RunFits(t, w, steps) && Held(t, w, steps, run, j) && Cited(w, run, j)
    requires t.keys || Seen(w, j)
    ensures Cited(Run(t, w, steps), run, j) && SameText(w.docs[j], Run(t, w, steps).docs[j])
    decreases |steps|
  {
    if steps != [] {
      StepKeeps(t, w, steps[0]);
      CitedTextKeptIff(t, w, steps[0], run, j);
      if !t.keys { SeenStays(t, w, steps[0], run, j); }
      CitedTextForEver(t, Apply(t, w, steps[0]), steps[1..], run, j);
    }
  }

  /** Whatever comes, for as long as the reference is held. */
  ghost predicate KeepsText(t: Tools, w: World, run: RunId, j: JobId)
    requires j in w.docs
  {
    forall steps :: RunFits(t, w, steps) && Held(t, w, steps, run, j) ==>
      Cited(Run(t, w, steps), run, j) && SameText(w.docs[j], Run(t, w, steps).docs[j])
  }

  /** A held reference keeps its generation's text over every run exactly when the database
      enforces its keys, or no prune in flight has looked without seeing it. */
  lemma TextIsKeptIff(t: Tools, w: World, run: RunId, j: JobId)
    requires Inv(t, w) && CollisionFree(t) && Cited(w, run, j)
    ensures KeepsText(t, w, run, j) <==> t.keys || Seen(w, j)
  {
    if t.keys || Seen(w, j) {
      forall steps | RunFits(t, w, steps) && Held(t, w, steps, run, j)
        ensures Cited(Run(t, w, steps), run, j) && SameText(w.docs[j], Run(t, w, steps).docs[j])
      {
        CitedTextForEver(t, w, steps, run, j);
      }
    } else {
      var p :| p in w.prunes && HasLooked(w, p) && j in Taken(w, p);
      var s := DoCommitPrune(p);
      CitedTextKeptIff(t, w, s, run, j);
      OneStep(t, w, s, run, j);
    }
  }

  lemma OneStep(t: Tools, w: World, s: Step, run: RunId, j: JobId)
    requires Fits(w, s) && (run, j) in w.refs && (run, j) in Apply(t, w, s).refs
    ensures RunFits(t, w, [s]) && Held(t, w, [s], run, j) && Run(t, w, [s]) == Apply(t, w, s)
  {
    RunOne(t, w, s);
    assert [s][1..] == [];
  }

  /** A reference recorded while its generation is one of the two newest, or before any prune
      holding it has looked, is in time. */
  lemma RecordedInTime(t: Tools, w: World, run: RunId, j: JobId)
    requires Inv(t, w) && CollisionFree(t) && (run, j) in w.checks && j in w.jobs && w.jobs[j].status == Completed
    requires j in Window(w.jobs, w.jobs[j].kb) || forall p :: p in w.prunes && HasLooked(w, p) ==> !Holds(w.prunes[p], j)
    ensures var w' := Apply(t, w, DoInsert(run, j)); Cited(w', run, j) && w'.docs == w.docs && KeepsText(t, w', run, j)
  {
    var w' := Apply(t, w, DoInsert(run, j));
    assert JobInv(t, w, j);
    StepKeeps(t, w, DoInsert(run, j));
    forall p | p in w'.prunes && HasLooked(w', p) ensures j !in Taken(w', p) {
      if j in Window(w.jobs, w.jobs[j].kb) { ProtectedIsNotHeld(t, w, p, j); }
    }
    TextIsKeptIff(t, w', run, j);
  }

  /** The reference is held, and its generation is gone, text and all. */
  predicate TextIsLost(w: World, run: RunId, j: JobId) { (run, j) in w.refs && j !in w.jobs && j !in w.docs }

  /** From any state with an old generation nothing refers to: a run's thread finds it, a prune
      lists it and looks, the reference is inserted, the prune commits. */
  lemma LateReferenceIsLost(t: Tools, w: World, run: RunId, j: JobId, p: PruneId, kb: KbId)
    requires Inv(t, w) && CollisionFree(t) && !t.keys && j in Old(w.jobs, kb) && j !in Referenced(w.refs) && p !in w.prunes
    ensures var w4 := InsertReference(t, LookUp(ListOld(CheckReference(w, run, j), p, kb), p), run, j);
      Cited(w4, run, j) && TextIsLost(CommitPrune(t, w4, p), run, j)
  {
    var w1 := CheckReference(w, run, j);
    var w2 := ListOld(w1, p, kb);
    var w3 := LookUp(w2, p);
    assert JobInv(t, w, j);
    StepKeeps(t, w, DoCheck(run, j));
    StepKeeps(t, w1, DoListOld(p, kb));
    StepKeeps(t, w2, DoLookUp(p));
    ListsAndLooks(w1, p, kb, j);
    InsertedLate(t, w3, run, j, p);
  }

  lemma ListsAndLooks(w: World, p: PruneId, kb: KbId, j: JobId)
    requires p !in w.prunes && j in Old(w.jobs, kb) && j !in Referenced(w.refs)
    ensures var w' := LookUp(ListOld(w, p, kb), p); HasLooked(w', p) && j in Taken(w', p) && w' == w.(prunes := w'.prunes)
  {}

  lemma InsertedLate(t: Tools, w: World, run: RunId, j: JobId, p: PruneId)
    requires Inv(t, w) && CollisionFree(t) && !t.keys && (run, j) in w.checks && HasLooked(w, p) && j in Taken(w, p)
    requires j in w.jobs && w.jobs[j].status == Completed
    ensures var w' := InsertReference(t, w, run, j); Cited(w', run, j) && TextIsLost(CommitPrune(t, w', p), run, j)
  {
    var w' := InsertReference(t, w, run, j);
    assert JobInv(t, w, j);
    StepKeeps(t, w, DoInsert(run, j));
    assert Taken(w', p) == Taken(w, p);
    CommitTakesIff(t, w', p, j);
  }

  // ------------------------------------------------------------------ dangling references

  predicate Named(w: World) { forall r :: r in w.refs ==> r.1 in w.jobs }

  /** An insert whose generation went after the check, or a commit that takes a generation cited
      after the prune looked; both only where nothing enforces the key. */
  predicate Dangles(t: Tools, w: World, s: Step) {
    && !t.keys
    && ((s.DoInsert? && (s.run, s.job) in w.checks && s.job !in w.jobs)
        || (s.DoCommitPrune? && HasLooked(w, s.prune) && Taken(w, s.prune) * Referenced(w.refs) != {}))
  }

  /** A step leaves a reference to a job that is gone exactly when it is one of these. */
  lemma NamedStaysIff(t: Tools, w: World, s: Step)
    requires Inv(t, w) && Fits(w, s) && Named(w)
    ensures Named(Apply(t, w, s)) <==> !Dangles(t, w, s)
  {
    if s.DoCommitPrune? {
      if HasLooked(w, s.prune) { CommitNamesIff(t, w, s.prune); }
    } else if IsRequest(s) {
      RequestNames(t, w, s);
    } else if !s.DoInsert? {
      OtherStepsName(t, w, s);
    }
  }

  lemma CommitNamesIff(t: Tools, w: World, p: PruneId)
    requires Inv(t, w) && HasLooked(w, p) && Named(w)
    ensures Named(CommitPrune(t, w, p)) <==> t.keys || Taken(w, p) * Referenced(w.refs) == {}
  {
    var w' := CommitPrune(t, w, p);
    if !t.keys && Taken(w, p) * Referenced(w.refs) != {} {
      var j := Member(Taken(w, p) * Referenced(w.refs));
      var r :| r in w.refs && r.1 == j;
      assert r in w'.refs && r.1 !in w'.jobs;
    } else {
      forall r | r in w'.refs ensures r.1 in w'.jobs {
        assert r.1 in Taken(w, p) ==> r.1 in Taken(w, p) * Referenced(w.refs);
      }
    }
  }

  lemma RequestNames(t: Tools, w: World, s: Step)
    requires IsRequest(s) && Named(w)
    ensures Named(Apply(t, w, s))
  {}

  lemma OtherStepsName(t: Tools, w: World, s: Step)
    requires Named(w) && !IsRequest(s) && !s.DoCommitPrune? && !s.DoInsert?
    ensures Named(Apply(t, w, s))
  {}

  predicate NothingDangles(t: Tools, w: World, steps: seq<Step>)
    decreases |steps|
  {
    steps == [] || (!Dangles(t, w, steps[0]) && NothingDangles(t, Apply(t, w, steps[0]), steps[1..]))
  }

  lemma {:induction false} NamedThroughout(t: Tools, w: World, steps: seq<Step>)
    requires Inv(t, w) && CollisionFree(t) && RunFits(t, w, steps) && Named(w) && (t.keys || NothingDangles(t, w, steps))
    ensures Named(Run(t, w, steps))
    decreases |steps|
  {
    if steps != [] {
      StepKeeps(t, w, steps[0]);
      NamedStaysIff(t, w, steps[0]);
      NamedThroughout(t, Apply(t, w, steps[0]), steps[1..]);
    }
  }

  /** From an empty system every reference names a job that is there, over every history where
      keys are enforced and over every other one without such a step. */
  lemma ReferencesAreSound(t: Tools, steps: seq<Step>)
    requires CollisionFree(t) && RunFits(t, EMPTY, steps) && (t.keys || NothingDangles(t, EMPTY, steps))
    ensures Named(Run(t, EMPTY, steps))
  {
    NamedThroughout(t, EMPTY, steps);
  }
}
