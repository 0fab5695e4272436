/** What repeated reconcile passes guarantee: nobody waits long, a verdict is final, and
    `handled` means missed twice running. */
module DraftFairness {
  import opened Basics
  import opened Sorting
  import opened DraftOutcomes

  // ------------------------------------------------------------------ fairness

  /** How many pending rows are examined before this one. */
  function Rank(rows: Rows, org: OrgId, x: RowId): nat { |Below(PendingIds(rows, org), Order(rows), x)| }

  lemma ExaminedIff(rows: Rows, org: OrgId, x: RowId)
    requires x in PendingIds(rows, org)
    ensures Examines(rows, org, x) <==> Rank(rows, org, x) < RECONCILE_BATCH
  {
    OrderIsStrict(rows, PendingIds(rows, org));
    FirstAre(PendingIds(rows, org), Order(rows), RECONCILE_BATCH, x);
  }

  /** The clock has moved past every earlier check of this org's rows. */
  predicate Later(rows: Rows, org: OrgId, now: int) {
    forall i :: i in rows && rows[i].org == org && rows[i].checkedAt.Some? ==> rows[i].checkedAt.value < now
  }

  lemma EarlierRankIsBefore(rows: Rows, org: OrgId, y: RowId, x: RowId)
    requires x in PendingIds(rows, org) && y in PendingIds(rows, org) && Rank(rows, org, y) < Rank(rows, org, x)
    ensures Order(rows)(y, x)
  {
    var ids := PendingIds(rows, org);
    OrderIsStrict(rows, ids);
    if Order(rows)(x, y) {
      assert Below(ids, Order(rows), x) <= Below(ids, Order(rows), y);
      Fewer(Below(ids, Order(rows), x), Below(ids, Order(rows), y));
      assert false;
    }
  }

  lemma FullBatch(rows: Rows, org: OrgId, x: RowId)
    requires x in PendingIds(rows, org) && !Examines(rows, org, x)
    ensures |Elements(Batch(rows, org))| == RECONCILE_BATCH
    ensures Elements(Batch(rows, org)) <= Below(PendingIds(rows, org), Order(rows), x)
  {
    var ids := PendingIds(rows, org);
    OrderIsStrict(rows, ids);
    ExaminedIff(rows, org, x);
    Fewer(Below(ids, Order(rows), x), ids);
    BatchIsPending(rows, org);
    var a := Sort(ids, Order(rows));
    assert Elements(a) == ids;
    PrefixSize(a, Order(rows), RECONCILE_BATCH);
    forall y | y in Batch(rows, org) ensures y in Below(ids, Order(rows), x) {
      ExaminedIff(rows, org, y);
      EarlierRankIsBefore(rows, org, y, x);
    }
  }

  /** A pass stamps the rows it examines and leaves the others alone. */
  predicate Stamped(rows: Rows, rows': Rows, batch: set<RowId>, org: OrgId, now: int) {
    && rows'.Keys == rows.Keys
    && (forall i :: i in batch ==> i in rows && rows[i].org == org && rows'[i].org == org && rows'[i].checkedAt == Some(now))
    && (forall i :: i in rows && i !in batch ==> rows'[i] == rows[i])
  }

  lemma PassStamps(rows: Rows, p: Pass, m: Mailbox)
    ensures Stamped(rows, Reconciled(rows, p, m), Elements(Batch(rows, p.org)), p.org, p.now)
  {
    BatchIsPending(rows, p.org);
    VerdictsStamp(rows, p, m, Elements(Batch(rows, p.org)));
  }

  lemma VerdictsStamp(rows: Rows, p: Pass, m: Mailbox, batch: set<RowId>)
    requires forall i :: i in batch ==> i in rows && rows[i].org == p.org
    ensures Stamped(rows, JudgedRows(rows, p, m, batch), batch, p.org, p.now)
  {}

  lemma StillAhead(rows: Rows, rows': Rows, batch: set<RowId>, org: OrgId, now: int, x: RowId, y: RowId)
    requires Stamped(rows, rows', batch, org, now) && Later(rows, org, now) && x in PendingIds(rows, org) && x !in batch
    requires y in PendingIds(rows', org) && Order(rows')(y, x)
    ensures y !in batch && y in PendingIds(rows, org) && Order(rows)(y, x)
  {}

  /** A row passed over moves up a whole batch. */
  lemma MovesUp(rows: Rows, rows': Rows, batch: set<RowId>, org: OrgId, now: int, x: RowId)
    requires Stamped(rows, rows', batch, org, now) && Later(rows, org, now) && x in PendingIds(rows, org) && x !in batch
    requires batch <= Below(PendingIds(rows, org), Order(rows), x)
    ensures x in PendingIds(rows', org) && rows'[x] == rows[x] && Rank(rows', org, x) + |batch| <= Rank(rows, org, x)
  {
    var before, after := Below(PendingIds(rows, org), Order(rows), x), Below(PendingIds(rows', org), Order(rows'), x);
    forall y | y in after ensures y in before && y !in batch {
      StillAhead(rows, rows', batch, org, now, x, y);
    }
    Fewer(after, before - batch);
    assert |before - batch| == |before| - |batch|;
  }

  lemma RankDrops(rows: Rows, p: Pass, m: Mailbox, x: RowId)
    requires x in PendingIds(rows, p.org) && !Examines(rows, p.org, x) && Later(rows, p.org, p.now)
    ensures var rows' := Reconciled(rows, p, m);
      x in PendingIds(rows', p.org) && rows'[x] == rows[x] && Rank(rows', p.org, x) + RECONCILE_BATCH <= Rank(rows, p.org, x)
  {
    FullBatch(rows, p.org, x);
    PassStamps(rows, p, m);
    MovesUp(rows, Reconciled(rows, p, m), Elements(Batch(rows, p.org)), p.org, p.now, x);
  }

  lemma LaterAfterStamp(rows: Rows, rows': Rows, batch: set<RowId>, org: OrgId, now: int, next: int)
    requires Stamped(rows, rows', batch, org, now) && Later(rows, org, now) && now < next
    ensures Later(rows', org, next)
  {}

  lemma LaterAfter(rows: Rows, p: Pass, m: Mailbox, next: int)
    requires Later(rows, p.org, p.now) && p.now < next
    ensures Later(Reconciled(rows, p, m), p.org, next)
  {
    PassStamps(rows, p, m);
    LaterAfterStamp(rows, Reconciled(rows, p, m), Elements(Batch(rows, p.org)), p.org, p.now, next);
  }

  datatype Round = Round(pass: Pass, mailbox: Mailbox)

  /** Successful passes for one org, at strictly increasing times. */
  predicate Rounds(rounds: seq<Round>, org: OrgId) {
    && (forall i :: 0 <= i < |rounds| ==> rounds[i].pass.org == org)
    && forall i, j :: 0 <= i < j < |rounds| ==> rounds[i].pass.now < rounds[j].pass.now
  }

  /** The row is in the batch of one of the first `n` passes. */
  predicate ExaminedWithin(rows: Rows, rounds: seq<Round>, org: OrgId, x: RowId, n: nat)
    decreases |rounds|
  {
    n > 0 && rounds != [] &&
    (Examines(rows, org, x) || ExaminedWithin(Reconciled(rows, rounds[0].pass, rounds[0].mailbox), rounds[1..], org, x, n - 1))
  }

  lemma {:induction false} WaitIsBounded(rows: Rows, rounds: seq<Round>, org: OrgId, x: RowId)
    requires x in PendingIds(rows, org) && Rounds(rounds, org) && (rounds != [] ==> Later(rows, org, rounds[0].pass.now))
    requires |rounds| > Rank(rows, org, x) / RECONCILE_BATCH
    ensures ExaminedWithin(rows, rounds, org, x, Rank(rows, org, x) / RECONCILE_BATCH + 1)
    decreases |rounds|
  {
    if !Examines(rows, org, x) {
      var p, m := rounds[0].pass, rounds[0].mailbox;
      ExaminedIff(rows, org, x);
      RankDrops(rows, p, m, x);
      if |rounds| > 1 { LaterAfter(rows, p, m, rounds[1].pass.now); }
      var rows' := Reconciled(rows, p, m);
      WaitIsBounded(rows', rounds[1..], org, x);
      Sooner25(rows', rounds[1..], org, x, Rank(rows', org, x) / RECONCILE_BATCH + 1, Rank(rows, org, x) / RECONCILE_BATCH);
    }
  }

  lemma {:induction false} Sooner25(rows: Rows, rounds: seq<Round>, org: OrgId, x: RowId, n: nat, k: nat)
    requires ExaminedWithin(rows, rounds, org, x, n) && n <= k
    ensures ExaminedWithin(rows, rounds, org, x, k)
    decreases |rounds|
  {
    if !Examines(rows, org, x) {
      Sooner25(Reconciled(rows, rounds[0].pass, rounds[0].mailbox), rounds[1..], org, x, n - 1, k - 1);
    }
  }

  /** Each of `n` pending drafts is examined within `ceil(n / 25)` successful passes. */
  lemma EveryDraftIsExamined(rows: Rows, rounds: seq<Round>, org: OrgId, x: RowId, n: nat)
    requires x in PendingIds(rows, org) && n == |PendingIds(rows, org)|
    requires Rounds(rounds, org) && |rounds| >= (n + RECONCILE_BATCH - 1) / RECONCILE_BATCH && Later(rows, org, rounds[0].pass.now)
    ensures ExaminedWithin(rows, rounds, org, x, (n + RECONCILE_BATCH - 1) / RECONCILE_BATCH)
  {
    var ids := PendingIds(rows, org);
    OrderIsStrict(rows, ids);
    var below := Below(ids, Order(rows), x);
    Fewer(below + {x}, ids);
    assert |below + {x}| == |below| + 1;
    WaitIsBounded(rows, rounds, org, x);
    Sooner25(rows, rounds, org, x, Rank(rows, org, x) / RECONCILE_BATCH + 1, (n + RECONCILE_BATCH - 1) / RECONCILE_BATCH);
  }

  // ------------------------------------------------------------------ verdicts

  /** A resolved row never changes again, nor does another org's. */
  lemma ResolvedIsFinal(rows: Rows, p: Pass, m: Mailbox, i: RowId)
    requires i in rows && (rows[i].status != Pending || rows[i].org != p.org)
    ensures i in Reconciled(rows, p, m) && Reconciled(rows, p, m)[i] == rows[i]
  {
    BatchIsPending(rows, p.org);
  }

  /** A row after a run of examinations; one that resolves is examined no more. */
  function Examined(r: Row, exams: seq<Round>): Row {
    if exams == [] then r
    else
      var last := exams[|exams| - 1];
      var before := Examined(r, exams[..|exams| - 1]);
      if before.status == Pending then Verdict(last.pass, last.mailbox, before) else before
  }

  predicate MissedLast(r: Row, exams: seq<Round>) {
    exams != [] && Missed(exams[|exams| - 1].pass, exams[|exams| - 1].mailbox, Examined(r, exams[..|exams| - 1]))
  }

  /** A draft becomes `handled` exactly when this examination and the one before it both miss
      it, in Drafts, in Sent by its header and in Sent by reply. */
  lemma HandledIffMissedTwice(r: Row, exams: seq<Round>)
    requires r.status == Pending && r.misses == 0 && exams != [] && Examined(r, exams[..|exams| - 1]).status == Pending
    ensures Examined(r, exams).status == Handled <==> MissedLast(r, exams) && MissedLast(r, exams[..|exams| - 1])
  {}

  /** The other verdicts, in the order the ladder tries them. */
  lemma VerdictsAreExact(p: Pass, m: Mailbox, r: Row)
    requires r.status == Pending && r.misses < MISS_THRESHOLD
    ensures var v := Verdict(p, m, r);
      && (v.status == Unknown <==> Expired(p, r))
      && (v.status == Sent <==> !Expired(p, r) && !StillDraft(m, r) && (SentByHeader(m, r) || SentByReply(m, r)))
      && (v.evidence == Some(InReplyTo) && v.status == Sent && r.evidence == None ==> !SentByHeader(m, r))
      && (v.status == Pending <==> !Expired(p, r) && (StillDraft(m, r) || (Missed(p, m, r) && r.misses == 0)))
      && v.key == r.key && v.org == r.org && v.created == r.created
      && (v.status != Pending ==> v.resolvedAt == Some(p.now)) && v.checkedAt == Some(p.now)
  {}

  // ------------------------------------------------------------------ recording

  predicate AddedFor(added: seq<Row>, keys: set<Key>, org: OrgId) {
    && (forall i :: 0 <= i < |added| ==> added[i].key in keys && added[i].org == org && added[i].status == Pending && added[i].misses == 0)
    && (forall i, j :: 0 <= i < j < |added| ==> added[i].key != added[j].key)
    && |added| == |keys|
  }

  lemma OneAdded(added: seq<Row>, keys: set<Key>, org: OrgId, k: Key, now: int)
    requires AddedFor(added, keys, org) && k !in keys
    ensures AddedFor(added + [Row(org, k, now, Pending, None, None, 0, None, None)], keys + {k}, org)
  {}

  /** `record_outcomes_for_run`: one pending row for each confirmed draft that has none yet,
      whichever member of the retry family recorded it. */
  method RecordOutcomes(existing: set<Key>, org: OrgId, drafted: set<Key>, now: int) returns (added: seq<Row>)
    ensures AddedFor(added, drafted - existing, org)
  {
    added := [];
    var missing := drafted - existing;
    var left := missing;
    while left != {}
      invariant left <= missing && AddedFor(added, missing - left, org)
      decreases left
    {
      var k := AnyOf(left);
      OneAdded(added, missing - left, org, k, now);
      assert missing - (left - {k}) == missing - left + {k};
      left := left - {k};
      added := added + [Row(org, k, now, Pending, None, None, 0, None, None)];
    }
    assert missing - left == missing;
  }

  predicate HasKey(added: seq<Row>, k: Key) { exists i :: 0 <= i < |added| && added[i].key == k }

  /** So every drafted key has exactly one row once the new ones are inserted. */
  lemma {:induction false} AddedCoverKeys(added: seq<Row>, keys: set<Key>, org: OrgId)
    requires AddedFor(added, keys, org)
    ensures forall k :: k in keys ==> HasKey(added, k)
  {
    if added != [] {
      var n := |added| - 1;
      AddedCoverKeys(added[..n], keys - {added[n].key}, org);
      forall k | k in keys ensures HasKey(added, k) {
        if k == added[n].key { assert HasKey(added, k); } else { assert HasKey(added[..n], k); }
      }
    }
  }
}
