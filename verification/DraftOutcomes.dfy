/** What became of each platform-written draft (`ui/backend/draft_outcomes.py`): one reconcile
    pass over the mailbox, and what repeated passes add up to. */
module DraftOutcomes {
  import opened Basics
  import opened Sorting

  type RowId = int
  type OrgId = int
  type MessageId = int

  const WINDOW_DAYS: int := 30
  const RECONCILE_BATCH: nat := 25
  const MISS_THRESHOLD: nat := 2

  /** The mailbox generation a key belongs to, and the message in it. */
  datatype Key = Key(credential: int, validity: int, uid: int)

  datatype Status = Pending | Sent | Handled | Unknown
  datatype Proof = SourceKeyHeader | InReplyTo

  datatype Row = Row(
    org: OrgId, key: Key, created: int,
    status: Status, checkedAt: Option<int>, resolvedAt: Option<int>, misses: nat,
    origin: Option<MessageId>, evidence: Option<Proof>)

  type Rows = map<RowId, Row>

  /** One pass: the mailbox generation in force, the clock, and the days a row stays young. */
  datatype Pass = Pass(org: OrgId, credential: int, validity: int, now: int, day: int)

  /** The mailbox's four answers, `None` for a call that raises. */
  datatype Mailbox = Mailbox(
    drafts: Option<set<Key>>, sent: Option<set<Key>>, origins: Option<map<Key, MessageId>>, replies: Option<set<MessageId>>)

  // ------------------------------------------------------------------ the verdict

  predicate Expired(p: Pass, r: Row) {
    r.key.credential != p.credential || r.key.validity != p.validity || r.created < p.now - WINDOW_DAYS * p.day
  }

  function Resolved(r: Row, status: Status, evidence: Option<Proof>, now: int): Row {
    r.(status := status, evidence := evidence, checkedAt := Some(now), resolvedAt := Some(now))
  }

  /** The row's `Message-ID`, looked up once the header search has missed. */
  function OriginOf(m: Mailbox, r: Row): Option<MessageId> {
    if r.origin.Some? then r.origin
    else if m.origins.Some? && r.key in m.origins.value then Some(m.origins.value[r.key]) else None
  }

  predicate StillDraft(m: Mailbox, r: Row) { m.drafts.Some? && r.key in m.drafts.value }

  predicate SentByHeader(m: Mailbox, r: Row) { m.sent.Some? && r.key in m.sent.value }

  predicate SentByReply(m: Mailbox, r: Row) {
    OriginOf(m, r).Some? && m.replies.Some? && OriginOf(m, r).value in m.replies.value
  }

  /** In none of the three places. */
  predicate Missed(p: Pass, m: Mailbox, r: Row) {
    !Expired(p, r) && !StillDraft(m, r) && !SentByHeader(m, r) && !SentByReply(m, r)
  }

  /** The ladder, rung by rung. */
  function Verdict(p: Pass, m: Mailbox, r: Row): Row {
    if Expired(p, r) then Resolved(r, Unknown, None, p.now)
    else if StillDraft(m, r) then r.(checkedAt := Some(p.now), misses := 0)
    else if SentByHeader(m, r) then Resolved(r, Sent, Some(SourceKeyHeader), p.now)
    else
      var known := r.(origin := OriginOf(m, r));
      if SentByReply(m, r) then Resolved(known, Sent, Some(InReplyTo), p.now)
      else
        var missed := known.(checkedAt := Some(p.now), misses := r.misses + 1);
        if missed.misses >= MISS_THRESHOLD then Resolved(missed, Handled, None, p.now) else missed
  }

  // ------------------------------------------------------------------ which rows a pass examines

  function PendingIds(rows: Rows, org: OrgId): set<RowId> {
    set i | i in rows && rows[i].org == org && rows[i].status == Pending
  }

  /** `ORDER BY checked_at ASC NULLS FIRST, id ASC` */
  predicate Sooner(rows: Rows, a: RowId, b: RowId)
    requires a in rows && b in rows
  {
    var x, y := rows[a].checkedAt, rows[b].checkedAt;
    if x == y then a < b else x.None? || (y.Some? && x.value < y.value)
  }

  function Order(rows: Rows): (RowId, RowId) -> bool {
    (a, b) => a in rows && b in rows && Sooner(rows, a, b)
  }

  lemma OrderIsStrict(rows: Rows, ids: set<RowId>)
    requires ids <= rows.Keys
    ensures Strict(ids, Order(rows))
  {}

  function Batch(rows: Rows, org: OrgId): seq<RowId> {
    OrderIsStrict(rows, PendingIds(rows, org));
    var ids := PendingIds(rows, org);
    Sort(ids, Order(rows))[..Least(RECONCILE_BATCH, |ids|)]
  }

  predicate Examines(rows: Rows, org: OrgId, i: RowId) { i in Batch(rows, org) }

  function JudgedRows(rows: Rows, p: Pass, m: Mailbox, batch: set<RowId>): Rows {
    map i | i in rows :: if i in batch then Verdict(p, m, rows[i]) else rows[i]
  }

  /** The rows after a pass that did not raise. */
  function Reconciled(rows: Rows, p: Pass, m: Mailbox): Rows { JudgedRows(rows, p, m, Elements(Batch(rows, p.org))) }

  // ------------------------------------------------------------------ the pass

  function Where(ids: seq<RowId>, keep: RowId -> bool): seq<RowId> {
    if ids == [] then [] else Where(ids[..|ids| - 1], keep) + (if keep(ids[|ids| - 1]) then [ids[|ids| - 1]] else [])
  }

  lemma {:induction false} WhereIn(ids: seq<RowId>, keep: RowId -> bool)
    ensures forall i :: i in Where(ids, keep) <==> i in ids && keep(i)
    ensures Distinct(ids) ==> Distinct(Where(ids, keep))
  {
    if ids != [] {
      var n := |ids| - 1;
      WhereIn(ids[..n], keep);
      assert forall i :: i in ids <==> i in ids[..n] || i == ids[n];
      if Distinct(ids) { assert ids[n] !in ids[..n]; }
    }
  }

  /** The rows changed so far are exactly the batch's rows in `done`, each by its verdict. */
  predicate Judged(before: Rows, after: Rows, p: Pass, m: Mailbox, done: set<RowId>) {
    after.Keys == before.Keys && forall i :: i in before ==> after[i] == if i in done then Verdict(p, m, before[i]) else before[i]
  }

  /** `reconcile`. `ok` is false when a search raised: nothing was committed. */
  method Reconcile(rows: Rows, p: Pass, m: Mailbox) returns (after: Rows, ok: bool)
    ensures ok ==> after == Reconciled(rows, p, m)
    ensures !ok ==> after == rows
    ensures m.drafts.Some? && m.sent.Some? && m.origins.Some? && m.replies.Some? ==> ok
  {
    var batch := Batch(rows, p.org);
    BatchIsPending(rows, p.org);
    var active;
    ghost var done;
    after, active, done := JudgeExpired(rows, p, m, batch);
    if active == [] {
      AllJudged(rows, after, p, m, batch, done);
      return after, true;
    }
    if m.drafts.None? {
      return rows, false;
    }
    var gone;
    ghost var done1;
    after, gone, done1 := JudgeDrafts(rows, after, p, m, active, done);
    if gone == [] {
      AllJudged(rows, after, p, m, batch, done1);
      return after, true;
    }
    if m.sent.None? {
      return rows, false;
    }
    var remaining;
    ghost var done2;
    after, remaining, done2 := JudgeSent(rows, after, p, m, gone, done1);
    if remaining == [] {
      AllJudged(rows, after, p, m, batch, done2);
      return after, true;
    }
    if (exists i :: i in remaining && rows[i].origin.None?) && m.origins.None? {
      return rows, false;
    }
    var withId := Where(remaining, i => i in rows && OriginOf(m, rows[i]).Some?);
    if withId != [] && m.replies.None? {
      return rows, false;
    }
    ghost var done3;
    after, done3 := JudgeRest(rows, after, p, m, remaining, done2);
    AllJudged(rows, after, p, m, batch, done3);
    return after, true;
  }

  lemma BatchIsPending(rows: Rows, org: OrgId)
    ensures Distinct(Batch(rows, org)) && forall i :: i in Batch(rows, org) ==> i in rows && rows[i].org == org && rows[i].status == Pending
  {}

  lemma AllJudged(rows: Rows, after: Rows, p: Pass, m: Mailbox, batch: seq<RowId>, done: set<RowId>)
    requires Judged(rows, after, p, m, done) && forall i :: i in batch <==> i in done
    ensures after == JudgedRows(rows, p, m, Elements(batch))
  {
    forall i ensures i in done <==> i in Elements(batch) {}
    assert done == Elements(batch);
    assert after.Keys == JudgedRows(rows, p, m, done).Keys;
    assert forall i :: i in after ==> after[i] == JudgedRows(rows, p, m, done)[i];
  }

  method JudgeExpired(rows: Rows, p: Pass, m: Mailbox, batch: seq<RowId>)
    returns (after: Rows, active: seq<RowId>, ghost done: set<RowId>)
    requires Distinct(batch) && forall i :: i in batch ==> i in rows
    ensures Judged(rows, after, p, m, done) && Distinct(active)
    ensures forall i :: i in active <==> i in batch && !Expired(p, rows[i])
    ensures forall i :: i in done <==> i in batch && i !in active
  {
    after, active, done := rows, [], {};
    for n := 0 to |batch|
      invariant Judged(rows, after, p, m, done)
      invariant active == Where(batch[..n], i => i in rows && !Expired(p, rows[i]))
      invariant forall i :: i in done <==> i in batch[..n] && i in rows && Expired(p, rows[i])
    {
      var i := batch[n];
      assert batch[..n + 1][..n] == batch[..n];
      assert i in batch && i !in batch[..n];
      if Expired(p, after[i]) {
        after := after[i := Resolved(after[i], Unknown, None, p.now)];
        done := done + {i};
      } else {
        active := active + [i];
      }
    }
    assert batch[..|batch|] == batch;
    WhereIn(batch, i => i in rows && !Expired(p, rows[i]));
  }

  method JudgeDrafts(rows: Rows, start: Rows, p: Pass, m: Mailbox, active: seq<RowId>, ghost done: set<RowId>)
    returns (after: Rows, gone: seq<RowId>, ghost done': set<RowId>)
    requires m.drafts.Some? && Distinct(active) && Judged(rows, start, p, m, done)
    requires forall i :: i in active ==> i in rows && i !in done && !Expired(p, rows[i])
    ensures Judged(rows, after, p, m, done') && Distinct(gone)
    ensures forall i :: i in gone <==> i in active && !StillDraft(m, rows[i])
    ensures forall i :: i in done' <==> i in done || (i in active && i !in gone)
  {
    after, gone, done' := start, [], done;
    for n := 0 to |active|
      invariant Judged(rows, after, p, m, done')
      invariant gone == Where(active[..n], i => i in rows && !StillDraft(m, rows[i]))
      invariant forall i :: i in done' <==> i in done || (i in active[..n] && i in rows && StillDraft(m, rows[i]))
    {
      var i := active[n];
      assert active[..n + 1][..n] == active[..n];
      assert i in active && i !in active[..n];
      if i in rows && rows[i].key in m.drafts.value {
        after := after[i := after[i].(checkedAt := Some(p.now), misses := 0)];
        done' := done' + {i};
      } else {
        gone := gone + [i];
      }
    }
    assert active[..|active|] == active;
    WhereIn(active, i => i in rows && !StillDraft(m, rows[i]));
  }

  method JudgeSent(rows: Rows, start: Rows, p: Pass, m: Mailbox, gone: seq<RowId>, ghost done: set<RowId>)
    returns (after: Rows, remaining: seq<RowId>, ghost done': set<RowId>)
    requires m.sent.Some? && Distinct(gone) && Judged(rows, start, p, m, done)
    requires forall i :: i in gone ==> i in rows && i !in done && !Expired(p, rows[i]) && !StillDraft(m, rows[i])
    ensures Judged(rows, after, p, m, done') && Distinct(remaining)
    ensures forall i :: i in remaining <==> i in gone && !SentByHeader(m, rows[i])
    ensures forall i :: i in done' <==> i in done || (i in gone && i !in remaining)
  {
    after, remaining, done' := start, [], done;
    for n := 0 to |gone|
      invariant Judged(rows, after, p, m, done')
      invariant remaining == Where(gone[..n], i => i in rows && !SentByHeader(m, rows[i]))
      invariant forall i :: i in done' <==> i in done || (i in gone[..n] && i in rows && SentByHeader(m, rows[i]))
    {
      var i := gone[n];
      assert gone[..n + 1][..n] == gone[..n];
      assert i in gone && i !in gone[..n];
      if i in rows && rows[i].key in m.sent.value {
        after := after[i := Resolved(after[i], Sent, Some(SourceKeyHeader), p.now)];
        done' := done' + {i};
      } else {
        remaining := remaining + [i];
      }
    }
    assert gone[..|gone|] == gone;
    WhereIn(gone, i => i in rows && !SentByHeader(m, rows[i]));
  }

  method JudgeRest(rows: Rows, start: Rows, p: Pass, m: Mailbox, remaining: seq<RowId>, ghost done: set<RowId>)
    returns (after: Rows, ghost done': set<RowId>)
    requires Distinct(remaining) && Judged(rows, start, p, m, done)
    requires forall i :: i in remaining ==> i in rows && i !in done && !Expired(p, rows[i]) && !StillDraft(m, rows[i]) && !SentByHeader(m, rows[i])
    ensures Judged(rows, after, p, m, done')
    ensures forall i :: i in done' <==> i in done || i in remaining
  {
    after, done' := start, done;
    for n := 0 to |remaining|
      invariant Judged(rows, after, p, m, done')
      invariant forall i :: i in done' <==> i in done || i in remaining[..n]
    {
      var i := remaining[n];
      assert remaining[..n + 1] == remaining[..n] + [i];
      assert i in remaining && i !in remaining[..n];
      var row := after[i];
      if row.origin.None? {
        row := row.(origin := OriginOf(m, row));
      }
      if row.origin.Some? && m.replies.Some? && row.origin.value in m.replies.value {
        row := Resolved(row, Sent, Some(InReplyTo), p.now);
      } else {
        row := row.(checkedAt := Some(p.now), misses := row.misses + 1);
        if row.misses >= MISS_THRESHOLD {
          row := Resolved(row, Handled, None, p.now);
        }
      }
      after := after[i := row];
      done' := done' + {i};
    }
    assert remaining[..|remaining|] == remaining;
  }
}
