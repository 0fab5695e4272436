/** Retries of a failed triggered run (`ui/backend/automation_results.py`,
    `ui/backend/email_trigger.py`): the family a run belongs to, what any member of it has
    already drafted, and the batch a new retry gets. */
module RetryFamily {
  import opened Basics

  type RunId = int
  type Uid = int

  /** `retry_of_run_id`, and when the row was created: a retry is created after its original. */
  datatype Run = Run(retryOf: Option<RunId>, created: nat)
  type Runs = map<RunId, Run>

  predicate Acyclic(runs: Runs) {
    forall r :: r in runs && HasParent(runs, r) ==> runs[Parent(runs, r)].created < runs[r].created
  }

  predicate HasParent(runs: Runs, r: RunId)
    requires r in runs
  {
    runs[r].retryOf.Some? && runs[r].retryOf.value in runs
  }

  function Parent(runs: Runs, r: RunId): RunId
    requires r in runs && HasParent(runs, r)
  {
    runs[r].retryOf.value
  }

  /** The last ancestor still in the table. */
  function Root(runs: Runs, r: RunId): RunId
    requires Acyclic(runs) && r in runs
    decreases runs[r].created
  {
    if HasParent(runs, r) then Root(runs, Parent(runs, r)) else r
  }

  lemma {:induction false} RootIsTop(runs: Runs, r: RunId)
    requires Acyclic(runs) && r in runs
    ensures Root(runs, r) in runs && !HasParent(runs, Root(runs, r)) && Root(runs, Root(runs, r)) == Root(runs, r)
    decreases runs[r].created
  {
    if HasParent(runs, r) { RootIsTop(runs, Parent(runs, r)); }
  }

  /** The family: every run with the same root. */
  function Family(runs: Runs, r: RunId): set<RunId>
    requires Acyclic(runs) && r in runs
  {
    set x | x in runs && Root(runs, x) == Root(runs, r)
  }

  method RootOf(runs: Runs, r: RunId) returns (root: RunId)
    requires Acyclic(runs) && r in runs
    ensures root == Root(runs, r)
  {
    root := r;
    while runs[root].retryOf.Some?
      invariant root in runs && Root(runs, root) == Root(runs, r)
      decreases runs[root].created
    {
      if runs[root].retryOf.value !in runs {
        break;
      }
      root := runs[root].retryOf.value;
    }
  }

  function Children(runs: Runs, of: set<RunId>): set<RunId> {
    set x | x in runs && runs[x].retryOf.Some? && runs[x].retryOf.value in of
  }

  function Elements(s: seq<RunId>): set<RunId> { set x | x in s }

  /** The rows of a query, in some order. */
  method Rows(s: set<RunId>) returns (rows: seq<RunId>)
    ensures Distinct(rows) && Elements(rows) == s
  {
    rows := [];
    var left := s;
    while left != {}
      invariant left <= s && Distinct(rows) && Elements(rows) == s - left
      decreases left
    {
      var x := AnyOf(left);
      left := left - {x};
      assert x !in Elements(rows);
      assert Elements(rows + [x]) == Elements(rows) + {x};
      rows := rows + [x];
    }
  }

  /** All the descendants found so far, and the last generation of them. */
  predicate Found(runs: Runs, root: RunId, family: set<RunId>, frontier: set<RunId>)
    requires Acyclic(runs)
  {
    && root in family && frontier <= family <= runs.Keys
    && (forall x :: x in family ==> Root(runs, x) == root)
    && (forall x :: x in runs && HasParent(runs, x) && Parent(runs, x) in family - frontier ==> x in family)
  }

  lemma NextGeneration(runs: Runs, root: RunId, family: set<RunId>, frontier: set<RunId>)
    requires Acyclic(runs) && Found(runs, root, family, frontier)
    ensures var next := Children(runs, frontier) - family; Found(runs, root, family + next, next)
  {}

  lemma {:induction false} AllFound(runs: Runs, root: RunId, family: set<RunId>, x: RunId)
    requires Acyclic(runs) && Found(runs, root, family, {}) && x in runs && Root(runs, x) == root
    ensures x in family
    decreases runs[x].created
  {
    if HasParent(runs, x) { AllFound(runs, root, family, Parent(runs, x)); }
  }

  /** `_retry_family_run_ids`: up to the root, then down a generation at a time. */
  method RetryFamilyRunIds(runs: Runs, r: RunId) returns (family: seq<RunId>)
    requires Acyclic(runs) && r in runs
    ensures Distinct(family) && Elements(family) == Family(runs, r)
  {
    var root := RootOf(runs, r);
    RootIsTop(runs, r);
    family := [root];
    var frontier := [root];
    assert Elements(family) == {root} == Elements(frontier);
    while frontier != []
      invariant Distinct(family) && Found(runs, root, Elements(family), Elements(frontier))
      decreases |runs.Keys - Elements(family)|, |frontier|
    {
      NextGeneration(runs, root, Elements(family), Elements(frontier));
      ghost var before := Elements(family);
      assert frontier[0] in Elements(frontier);
      frontier := Rows(Children(runs, Elements(frontier)) - Elements(family));
      ghost var next := Elements(frontier);
      Appended(family, frontier);
      family := family + frontier;
      if frontier != [] {
        assert frontier[0] in next;
        Fewer(runs.Keys - (before + next), runs.Keys - before);
      } else {
        assert next == {} && before + next == before;
      }
    }
    assert Elements(frontier) == {};
    forall x | x in runs && Root(runs, x) == root ensures x in Elements(family) { AllFound(runs, root, Elements(family), x); }
    assert Elements(family) == Family(runs, r);
  }

  lemma Appended(a: seq<RunId>, b: seq<RunId>)
    requires Distinct(a) && Distinct(b) && Elements(a) !! Elements(b)
    ensures Distinct(a + b) && Elements(a + b) == Elements(a) + Elements(b)
  {
    forall i, j | 0 <= i < j < |a + b| ensures (a + b)[i] != (a + b)[j] {
      if i < |a| <= j {
        assert a[i] in Elements(a) && b[j - |a|] in Elements(b);
      }
    }
  }

  /** Any member gives the same family, and it is the tree below the root. */
  lemma SameFromAnyMember(runs: Runs, r: RunId, x: RunId)
    requires Acyclic(runs) && r in runs && x in Family(runs, r)
    ensures Family(runs, x) == Family(runs, r) && r in Family(runs, r) && Root(runs, r) in Family(runs, r)
    ensures forall y :: y in runs && HasParent(runs, y) ==> (y in Family(runs, r) <==> Parent(runs, y) in Family(runs, r))
  {
    RootIsTop(runs, r);
  }

  // ------------------------------------------------------------------ what has been drafted

  /** `mailbox:..:uidvalidity:..:uid:..` */
  datatype SourceKey = SourceKey(credential: int, validity: int, uid: Uid)

  /** A persisted `tool_completed` event: its data may be malformed, its id padded. */
  datatype Trace = Malformed | Tool(isDraftReply: bool, confirmed: bool, messageId: Option<int>)

  datatype Context = Context(credential: int, validity: int, uids: seq<Uid>)

  datatype Evidence = Evidence(results: map<(RunId, SourceKey), bool>, traces: map<RunId, seq<Trace>>, strip: int -> int)

  predicate TraceConfirms(strip: int -> int, t: Trace, u: Uid) {
    t.Tool? && t.isDraftReply && t.confirmed && t.messageId.Some? && strip(t.messageId.value) == u
  }

  /** This run has the message's draft on record, in either source. */
  predicate ConfirmedBy(e: Evidence, r: RunId, c: Context, u: Uid) {
    || ((r, SourceKey(c.credential, c.validity, u)) in e.results && e.results[(r, SourceKey(c.credential, c.validity, u))])
    || (r in e.traces && exists i :: 0 <= i < |e.traces[r]| && TraceConfirms(e.strip, e.traces[r][i], u))
  }

  predicate Confirmed(e: Evidence, family: set<RunId>, c: Context, u: Uid) {
    exists r :: r in family && ConfirmedBy(e, r, c, u)
  }

  function AlreadyDrafted(e: Evidence, family: set<RunId>, c: Context): set<Uid> {
    set u | u in c.uids && Confirmed(e, family, c, u)
  }

  /** `_trace_confirmed_uids`, over one run's events. */
  method TraceConfirmedUids(strip: int -> int, events: seq<Trace>, allowed: set<Uid>) returns (confirmed: set<Uid>)
    ensures confirmed == set u | u in allowed && exists i :: 0 <= i < |events| && TraceConfirms(strip, events[i], u)
  {
    confirmed := {};
    for i := 0 to |events|
      invariant confirmed == set u | u in allowed && exists j :: 0 <= j < i && TraceConfirms(strip, events[j], u)
    {
      var t := events[i];
      if t.Malformed? || !t.isDraftReply || !t.confirmed || t.messageId.None? {
        continue;
      }
      if strip(t.messageId.value) in allowed {
        confirmed := confirmed + {strip(t.messageId.value)};
      }
    }
  }

  /** `already_drafted_uids` */
  method AlreadyDraftedUids(e: Evidence, runs: Runs, r: RunId, c: Context) returns (drafted: set<Uid>)
    requires Acyclic(runs) && r in runs
    ensures drafted == AlreadyDrafted(e, Family(runs, r), c)
  {
    drafted := {};
    if c.uids == [] {
      return;
    }
    var family := RetryFamilyRunIds(runs, r);
    var allowed := set u | u in c.uids;
    for i := 0 to |family|
      invariant drafted == AlreadyDrafted(e, Elements(family[..i]), c)
    {
      var x := family[i];
      var fromResults := set u | u in allowed && (x, SourceKey(c.credential, c.validity, u)) in e.results && e.results[(x, SourceKey(c.credential, c.validity, u))];
      var fromTrace := TraceConfirmedUids(e.strip, if x in e.traces then e.traces[x] else [], allowed);
      OneMoreMember(e, family, i, c, fromResults, fromTrace);
      drafted := drafted + fromResults + fromTrace;
    }
    assert family[..|family|] == family;
  }

  lemma OneMoreMember(e: Evidence, family: seq<RunId>, i: nat, c: Context, fromResults: set<Uid>, fromTrace: set<Uid>)
    requires i < |family|
    requires fromResults == set u | u in c.uids && (family[i], SourceKey(c.credential, c.validity, u)) in e.results && e.results[(family[i], SourceKey(c.credential, c.validity, u))]
    requires fromTrace == set u | u in c.uids && family[i] in e.traces && exists j :: 0 <= j < |e.traces[family[i]]| && TraceConfirms(e.strip, e.traces[family[i]][j], u)
    ensures AlreadyDrafted(e, Elements(family[..i + 1]), c) == AlreadyDrafted(e, Elements(family[..i]), c) + fromResults + fromTrace
  {
    assert Elements(family[..i + 1]) == Elements(family[..i]) + {family[i]};
    forall u | u in c.uids
      ensures Confirmed(e, Elements(family[..i + 1]), c, u) <==> Confirmed(e, Elements(family[..i]), c, u) || ConfirmedBy(e, family[i], c, u) {
      assert family[i] in Elements(family[..i + 1]);
    }
  }

  // ------------------------------------------------------------------ a retry's batch

  function Without(uids: seq<Uid>, gone: set<Uid>): seq<Uid> {
    if uids == [] then [] else (if uids[0] in gone then [] else [uids[0]]) + Without(uids[1..], gone)
  }

  /** `[u for u in uids if u not in gone]` */
  method Remaining(uids: seq<Uid>, gone: set<Uid>) returns (rest: seq<Uid>)
    ensures rest == Without(uids, gone)
  {
    rest := [];
    for i := 0 to |uids|
      invariant rest + Without(uids[i..], gone) == Without(uids, gone)
    {
      assert uids[i..][1..] == uids[i + 1..];
      if uids[i] !in gone {
        rest := rest + [uids[i]];
      }
    }
  }

  lemma {:induction false} WithoutHolds(uids: seq<Uid>, gone: set<Uid>)
    ensures forall u :: u in Without(uids, gone) <==> u in uids && u !in gone
  {
    if uids != [] {
      WithoutHolds(uids[1..], gone);
      assert uids == [uids[0]] + uids[1..];
    }
  }

  /** What a retry is given: its batch, the tools' allow-list, the context it records, and the
      messages it marks as done. `None` when nothing is left. */
  datatype Batch = Batch(uids: seq<Uid>, allowed: set<Uid>, context: Context, done: set<Uid>)

  /** The last part of `retry_triggered_run`, under the dispatch lock: `inMailbox` is what the
      drafts scan of the candidates finds. */
  method RetryBatch(e: Evidence, runs: Runs, r: RunId, c: Context, inMailbox: seq<Uid> -> set<Uid>) returns (batch: Option<Batch>)
    requires Acyclic(runs) && r in runs
    ensures batch.None? <==> forall u :: u in c.uids ==> u in Done(e, Family(runs, r), c, inMailbox)
    ensures batch.Some? ==>
      var done, b := Done(e, Family(runs, r), c, inMailbox), batch.value;
      && b == Batch(Without(c.uids, done), b.allowed, c.(uids := Without(c.uids, done)), done)
      && b.allowed == (set u | u in Without(c.uids, done))
  {
    var drafted := AlreadyDraftedUids(e, runs, r, c);
    var candidates := Remaining(c.uids, drafted);
    var done := drafted + inMailbox(candidates);
    var uids := Remaining(c.uids, done);
    WithoutHolds(c.uids, done);
    assert done == Done(e, Family(runs, r), c, inMailbox);
    if uids == [] {
      assert forall u :: u in c.uids && u !in done ==> u in uids;
      return None;
    }
    assert uids[0] in uids && uids[0] in c.uids && uids[0] !in done;
    batch := Some(Batch(uids, (set u | u in uids), c.(uids := uids), done));
  }

  function Done(e: Evidence, family: set<RunId>, c: Context, inMailbox: seq<Uid> -> set<Uid>): set<Uid> {
    AlreadyDrafted(e, family, c) + inMailbox(Without(c.uids, AlreadyDrafted(e, family, c)))
  }

  function Kept(uids: seq<Uid>, done: set<Uid>): seq<Uid> {
    if uids == [] then [] else (if uids[0] in done then [uids[0]] else []) + Kept(uids[1..], done)
  }

  lemma {:induction false} BatchPartitions(uids: seq<Uid>, done: set<Uid>)
    ensures multiset(uids) == multiset(Without(uids, done)) + multiset(Kept(uids, done))
    ensures |uids| == |Without(uids, done)| + |Kept(uids, done)|
    ensures forall u :: u in Kept(uids, done) ==> u in done
  {
    if uids != [] {
      BatchPartitions(uids[1..], done);
      assert uids == [uids[0]] + uids[1..];
    }
  }

  /** The batch, the allow-list and the recorded context agree; they hold no message that any
      member of the family confirmed; and with the excluded messages they are the original
      batch, copy for copy. */
  lemma RetryNeverRedrafts(e: Evidence, runs: Runs, r: RunId, x: RunId, c: Context, inMailbox: seq<Uid> -> set<Uid>, u: Uid)
    requires Acyclic(runs) && r in runs && x in Family(runs, r)
    ensures var done := Done(e, Family(runs, r), c, inMailbox); var uids := Without(c.uids, done);
      && (Confirmed(e, Family(runs, x), c, u) ==> u !in uids)
      && (u in inMailbox(Without(c.uids, AlreadyDrafted(e, Family(runs, r), c))) ==> u !in uids)
      && (u in c.uids && u !in uids ==> u in done)
      && multiset(c.uids) == multiset(uids) + multiset(Kept(c.uids, done))
  {
    var done := Done(e, Family(runs, r), c, inMailbox);
    SameFromAnyMember(runs, r, x);
    WithoutHolds(c.uids, done);
    BatchPartitions(c.uids, done);
  }

  // ------------------------------------------------------------------ a growing tree

  /** Recording a retry: it joins its original's family, and no family splits or merges. */
  lemma {:induction false} RootAfterRetry(runs: Runs, r: RunId, id: RunId, created: nat, x: RunId)
    requires Acyclic(runs) && r in runs && id !in runs && x in runs && (forall y :: y in runs ==> runs[y].created < created && runs[y].retryOf != Some(id))
    ensures var runs' := runs[id := Run(Some(r), created)]; Acyclic(runs') && Root(runs', x) == Root(runs, x)
    decreases runs[x].created
  {
    if HasParent(runs, x) { RootAfterRetry(runs, r, id, created, Parent(runs, x)); }
  }

  lemma RetryJoinsFamily(runs: Runs, r: RunId, id: RunId, created: nat)
    requires Acyclic(runs) && r in runs && id !in runs && (forall y :: y in runs ==> runs[y].created < created && runs[y].retryOf != Some(id))
    ensures var runs' := runs[id := Run(Some(r), created)];
      && Acyclic(runs') && Family(runs', id) == Family(runs, r) + {id}
      && forall x :: x in runs ==> Family(runs', x) == Family(runs, x) + (if x in Family(runs, r) then {id} else {})
  {
    var runs' := runs[id := Run(Some(r), created)];
    forall x | x in runs ensures Root(runs', x) == Root(runs, x) { RootAfterRetry(runs, r, id, created, x); }
    RootAfterRetry(runs, r, id, created, r);
    assert Root(runs', id) == Root(runs', r);
  }
}
