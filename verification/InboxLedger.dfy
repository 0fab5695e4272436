/** The durable per-message ledger (`ui/backend/db/inbox_events.py`). A row's id is its place
    in the table; rows are never deleted. */
module InboxLedger {
  import opened Basics

  type RunId = int

  /** The table's unique key, for one connector. */
  datatype Key = Key(org: int, mailbox: int, generation: int, uid: int)

  datatype Status = Pending | Claimed | Done | Failed | Filtered

  datatype Event = Event(key: Key, status: Status, run: Option<RunId>, attempts: nat)

  type Ledger = seq<Event>

  predicate Has(l: Ledger, k: Key) { exists i :: 0 <= i < |l| && l[i].key == k }

  predicate OneRowEach(l: Ledger) { forall i, j :: 0 <= i < j < |l| ==> l[i].key != l[j].key }

  /** The same messages in the same rows. */
  predicate SameKeys(l: Ledger, l': Ledger) { |l'| == |l| && forall i :: 0 <= i < |l| ==> l'[i].key == l[i].key }

  // ------------------------------------------------------------------ what each statement does

  /** `on_conflict_do_nothing`: a new row for each key not there yet. */
  function Record(l: Ledger, org: int, mailbox: int, generation: int, uids: seq<int>, rejected: set<int>): Ledger
    decreases |uids|
  {
    if uids == [] then l
    else
      var k := Key(org, mailbox, generation, uids[0]);
      Record(if Has(l, k) then l else l + [Event(k, if uids[0] in rejected then Filtered else Pending, None, 0)],
             org, mailbox, generation, uids[1..], rejected)
  }

  /** A row `claim_events` may take for this mailbox and generation. */
  predicate Waiting(e: Event, org: int, mailbox: int, generation: int) {
    e.status == Pending && e.key.org == org && e.key.mailbox == mailbox && e.key.generation == generation
  }

  function CountWaiting(l: Ledger, org: int, mailbox: int, generation: int): nat {
    if l == [] then 0
    else CountWaiting(l[..|l| - 1], org, mailbox, generation) + (if Waiting(l[|l| - 1], org, mailbox, generation) then 1 else 0)
  }

  /** The oldest waiting rows, up to the limit, handed to a run. */
  function Claim(l: Ledger, org: int, mailbox: int, generation: int, run: RunId, limit: int): Ledger {
    seq(|l|, i requires 0 <= i < |l| =>
      if Waiting(l[i], org, mailbox, generation) && CountWaiting(l[..i], org, mailbox, generation) < limit
      then l[i].(status := Claimed, run := Some(run)) else l[i])
  }

  predicate HeldBy(e: Event, run: RunId) { e.status == Claimed && e.run == Some(run) }

  function Dispatched(e: Event, run: RunId): Event { if HeldBy(e, run) then e.(attempts := e.attempts + 1) else e }

  function MarkDispatched(l: Ledger, run: RunId): Ledger { seq(|l|, i requires 0 <= i < |l| => Dispatched(l[i], run)) }

  function Released(e: Event, run: RunId, maxAttempts: nat): Event {
    if !HeldBy(e, run) then e
    else if e.attempts >= maxAttempts then e.(status := Failed)
    else e.(status := Pending, run := None)
  }

  function Release(l: Ledger, run: RunId, maxAttempts: nat): Ledger {
    seq(|l|, i requires 0 <= i < |l| => Released(l[i], run, maxAttempts))
  }

  function Completed(e: Event, run: RunId, done: set<int>): Event {
    if HeldBy(e, run) then e.(status := if e.key.uid in done then Done else Failed) else e
  }

  function Complete(l: Ledger, run: RunId, done: set<int>): Ledger { seq(|l|, i requires 0 <= i < |l| => Completed(l[i], run, done)) }

  function Resolved(e: Event, from: RunId, to: RunId, retry: set<int>, done: set<int>): Event {
    if e.status != Failed || e.run != Some(from) then e
    else if e.key.uid in done then e.(status := Done)
    else if e.key.uid in retry then e.(status := Claimed, run := Some(to), attempts := 0)
    else e
  }

  function ResolveRetry(l: Ledger, from: RunId, to: RunId, retry: set<int>, done: set<int>): Ledger {
    seq(|l|, i requires 0 <= i < |l| => Resolved(l[i], from, to, retry, done))
  }

  function Abandoned(e: Event, org: int, mailbox: int, generation: Option<int>): Event {
    if e.key.org == org && (e.status == Pending || e.status == Filtered)
       && (e.key.mailbox != mailbox || (generation.Some? && e.key.generation != generation.value))
    then e.(status := Failed) else e
  }

  function AbandonSuperseded(l: Ledger, org: int, mailbox: int, generation: Option<int>): Ledger {
    seq(|l|, i requires 0 <= i < |l| => Abandoned(l[i], org, mailbox, generation))
  }

  function ReleaseFiltered(l: Ledger, org: int, id: int): Ledger {
    if 0 <= id < |l| && l[id].key.org == org && l[id].status == Filtered then l[id := l[id].(status := Pending, run := None)] else l
  }

  // ------------------------------------------------------------------ the loops

  class Inbox {
    var rows: Ledger

    method RecordEvents(org: int, mailbox: int, generation: int, uids: seq<int>, rejected: set<int>) returns (added: nat)
      modifies this
      ensures rows == Record(old(rows), org, mailbox, generation, uids, rejected)
      ensures added == |rows| - |old(rows)|
    {
      added := 0;
      for i := 0 to |uids|
        invariant Record(rows, org, mailbox, generation, uids[i..], rejected) == Record(old(rows), org, mailbox, generation, uids, rejected)
        invariant added == |rows| - |old(rows)|
      {
        assert uids[i..][1..] == uids[i + 1..];
        var k := Key(org, mailbox, generation, uids[i]);
        if !Has(rows, k) {
          rows := rows + [Event(k, if uids[i] in rejected then Filtered else Pending, None, 0)];
          added := added + 1;
        }
      }
    }

    method ClaimEvents(org: int, mailbox: int, generation: int, run: RunId, limit: int) returns (taken: nat)
      modifies this
      ensures rows == Claim(old(rows), org, mailbox, generation, run, limit)
      ensures taken == Min(CountWaiting(old(rows), org, mailbox, generation), if limit > 0 then limit else 0)
    {
      taken := 0;
      ghost var l := rows;
      for i := 0 to |rows|
        invariant |rows| == |l| && taken == Min(CountWaiting(l[..i], org, mailbox, generation), if limit > 0 then limit else 0)
        invariant forall j :: 0 <= j < |l| ==> rows[j] == if j < i then Claim(l, org, mailbox, generation, run, limit)[j] else l[j]
      {
        assert l[..i + 1][..i] == l[..i];
        if Waiting(rows[i], org, mailbox, generation) && taken < limit {
          rows := rows[i := rows[i].(status := Claimed, run := Some(run))];
          taken := taken + 1;
        }
      }
      assert l[..|l|] == l;
    }

    method ReleaseEvents(run: RunId, maxAttempts: nat) returns (deadLettered: nat)
      modifies this
      ensures rows == Release(old(rows), run, maxAttempts)
      ensures deadLettered > 0 <==> exists i :: 0 <= i < |old(rows)| && HeldBy(old(rows)[i], run) && old(rows)[i].attempts >= maxAttempts
    {
      deadLettered := 0;
      for i := 0 to |rows|
        invariant |rows| == |old(rows)|
        invariant forall j :: 0 <= j < |rows| ==> rows[j] == if j < i then Released(old(rows)[j], run, maxAttempts) else old(rows)[j]
        invariant deadLettered > 0 <==> exists j :: 0 <= j < i && HeldBy(old(rows)[j], run) && old(rows)[j].attempts >= maxAttempts
      {
        if HeldBy(rows[i], run) {
          if rows[i].attempts >= maxAttempts {
            rows := rows[i := rows[i].(status := Failed)];
            deadLettered := deadLettered + 1;
          } else {
            rows := rows[i := rows[i].(status := Pending, run := None)];
          }
        }
      }
    }

    method CompleteEvents(run: RunId, done: set<int>)
      modifies this
      ensures rows == Complete(old(rows), run, done)
    {
      for i := 0 to |rows|
        invariant |rows| == |old(rows)|
        invariant forall j :: 0 <= j < |rows| ==> rows[j] == if j < i then Completed(old(rows)[j], run, done) else old(rows)[j]
      {
        if HeldBy(rows[i], run) {
          rows := rows[i := rows[i].(status := if rows[i].key.uid in done then Done else Failed)];
        }
      }
    }

    method ResolveRetryEvents(from: RunId, to: RunId, retry: set<int>, done: set<int>)
      modifies this
      ensures rows == ResolveRetry(old(rows), from, to, retry, done)
    {
      for i := 0 to |rows|
        invariant |rows| == |old(rows)|
        invariant forall j :: 0 <= j < |rows| ==> rows[j] == if j < i then Resolved(old(rows)[j], from, to, retry, done) else old(rows)[j]
      {
        if rows[i].status == Failed && rows[i].run == Some(from) {
          if rows[i].key.uid in done {
            rows := rows[i := rows[i].(status := Done)];
          } else if rows[i].key.uid in retry {
            rows := rows[i := rows[i].(status := Claimed, run := Some(to), attempts := 0)];
          }
        }
      }
    }
  }

  function Min(a: int, b: int): int { if a <= b then a else b }

  // ------------------------------------------------------------------ recording

  predicate NewRow(e: Event, org: int, mailbox: int, generation: int, uids: seq<int>, rejected: set<int>) {
    e.key.uid in uids && e == Event(Key(org, mailbox, generation, e.key.uid), if e.key.uid in rejected then Filtered else Pending, None, 0)
  }

  /** Nothing already recorded moves; afterwards each id has exactly one row; what is new is
      pending, or filtered if the filter rejected it. */
  lemma {:induction false} RecordIsDurable(l: Ledger, org: int, mailbox: int, generation: int, uids: seq<int>, rejected: set<int>)
    requires OneRowEach(l)
    ensures var l' := Record(l, org, mailbox, generation, uids, rejected);
      && l <= l' && OneRowEach(l')
      && (forall u :: u in uids ==> Has(l', Key(org, mailbox, generation, u)))
      && (forall i :: |l| <= i < |l'| ==> NewRow(l'[i], org, mailbox, generation, uids, rejected))
    decreases |uids|
  {
    if uids != [] {
      var k := Key(org, mailbox, generation, uids[0]);
      var l1 := if Has(l, k) then l else l + [Event(k, if uids[0] in rejected then Filtered else Pending, None, 0)];
      assert Has(l1, k) by { if !Has(l, k) { assert l1[|l|].key == k; } }
      RecordIsDurable(l1, org, mailbox, generation, uids[1..], rejected);
      var l' := Record(l, org, mailbox, generation, uids, rejected);
      PrefixHas(l1, l', k);
      forall u | u in uids ensures Has(l', Key(org, mailbox, generation, u)) {
        assert u == uids[0] || u in uids[1..];
      }
      forall i | |l| <= i < |l'| ensures NewRow(l'[i], org, mailbox, generation, uids, rejected) {
        if i >= |l1| { assert l'[i].key.uid in uids[1..]; } else { assert l'[i] == l1[i]; }
      }
    }
  }

  lemma PrefixHas(l: Ledger, l': Ledger, k: Key)
    requires l <= l' && Has(l, k)
    ensures Has(l', k)
  {}

  lemma RecordAddsExactly(l: Ledger, org: int, mailbox: int, generation: int, uids: seq<int>, rejected: set<int>, k: Key)
    requires OneRowEach(l)
    ensures Has(Record(l, org, mailbox, generation, uids, rejected), k) <==> Has(l, k) || (k == Key(org, mailbox, generation, k.uid) && k.uid in uids)
  {
    var l' := Record(l, org, mailbox, generation, uids, rejected);
    RecordIsDurable(l, org, mailbox, generation, uids, rejected);
    if Has(l, k) {
      PrefixHas(l, l', k);
    } else {
      forall i | 0 <= i < |l'| && l'[i].key == k ensures k == Key(org, mailbox, generation, k.uid) && k.uid in uids {
        assert l[..] == l'[..|l|];
        assert NewRow(l'[i], org, mailbox, generation, uids, rejected);
      }
    }
  }

  /** Recording the same ids again changes nothing, whatever the filter says now. */
  lemma {:induction false} RecordAgain(l: Ledger, org: int, mailbox: int, generation: int, uids: seq<int>, rejected: set<int>)
    requires forall u :: u in uids ==> Has(l, Key(org, mailbox, generation, u))
    ensures Record(l, org, mailbox, generation, uids, rejected) == l
    decreases |uids|
  {
    if uids != [] {
      assert uids[0] in uids;
      RecordAgain(l, org, mailbox, generation, uids[1..], rejected);
    }
  }

  // ------------------------------------------------------------------ claims

  /** Rows a later claim may take: never handed out, or handed back with budget left. */
  predicate Clean(l: Ledger, maxAttempts: nat) {
    forall i :: 0 <= i < |l| && l[i].status == Pending ==> l[i].run == None && l[i].attempts < maxAttempts
  }

  predicate Unused(l: Ledger, run: RunId) { forall i :: 0 <= i < |l| ==> l[i].run != Some(run) }

  /** A release right after a claim is a complete undo: same rows, no attempt charged. */
  lemma ReleaseUndoesClaim(l: Ledger, org: int, mailbox: int, generation: int, run: RunId, limit: int, maxAttempts: nat)
    requires Clean(l, maxAttempts) && Unused(l, run)
    ensures Release(Claim(l, org, mailbox, generation, run, limit), run, maxAttempts) == l
  {}

  /** Without the bound on attempts it is not: a row at the limit is dead-lettered instead. */
  lemma ReleaseDeadLettersIff(e: Event, run: RunId, maxAttempts: nat)
    requires HeldBy(e, run)
    ensures Released(e, run, maxAttempts).status == Failed <==> e.attempts >= maxAttempts
    ensures Released(e, run, maxAttempts).status == Pending <==> e.attempts < maxAttempts
    ensures Released(e, run, maxAttempts).attempts == e.attempts
  {}

  /** A dispatched run that is released costs its messages one attempt each, and after
      `maxAttempts` dispatches a message is dead-lettered, not queued again. */
  lemma AttemptsAreCharged(e: Event, run: RunId, maxAttempts: nat)
    requires e.status == Pending && e.attempts < maxAttempts
    ensures var held := e.(status := Claimed, run := Some(run)); var back := Released(Dispatched(held, run), run, maxAttempts);
      back.attempts == e.attempts + 1 && (back.status == Pending <==> e.attempts + 1 < maxAttempts) && back.status in {Pending, Failed}
  {}

  function CountHeld(l: Ledger, run: RunId): nat {
    if l == [] then 0 else CountHeld(l[..|l| - 1], run) + (if HeldBy(l[|l| - 1], run) then 1 else 0)
  }

  lemma {:induction false} ClaimTakes(l: Ledger, org: int, mailbox: int, generation: int, run: RunId, limit: int)
    requires Unused(l, run)
    ensures CountHeld(Claim(l, org, mailbox, generation, run, limit), run) == Min(CountWaiting(l, org, mailbox, generation), if limit > 0 then limit else 0)
    ensures forall i :: 0 <= i < |l| && HeldBy(Claim(l, org, mailbox, generation, run, limit)[i], run) ==> Waiting(l[i], org, mailbox, generation)
    decreases |l|
  {
    if l != [] {
      var n := |l| - 1;
      var c := Claim(l, org, mailbox, generation, run, limit);
      ClaimTakes(l[..n], org, mailbox, generation, run, limit);
      assert c[..n] == Claim(l[..n], org, mailbox, generation, run, limit) by {
        forall i | 0 <= i < n ensures c[i] == Claim(l[..n], org, mailbox, generation, run, limit)[i] { assert l[..n][..i] == l[..i]; }
      }
    }
  }

  /** The claimed rows are the oldest: nothing waiting is passed over for a later row. */
  lemma {:induction false} ClaimTakesOldest(l: Ledger, org: int, mailbox: int, generation: int, run: RunId, limit: int, i: nat, j: nat)
    requires i < j < |l| && Unused(l, run) && Waiting(l[i], org, mailbox, generation)
    ensures HeldBy(Claim(l, org, mailbox, generation, run, limit)[j], run) ==> HeldBy(Claim(l, org, mailbox, generation, run, limit)[i], run)
  {
    CountGrows(l, org, mailbox, generation, i, j);
  }

  lemma {:induction false} CountGrows(l: Ledger, org: int, mailbox: int, generation: int, i: nat, j: nat)
    requires i <= j <= |l|
    ensures CountWaiting(l[..i], org, mailbox, generation) <= CountWaiting(l[..j], org, mailbox, generation)
    decreases j
  {
    if i < j {
      assert l[..j][..j - 1] == l[..j - 1];
      CountGrows(l, org, mailbox, generation, i, j - 1);
    }
  }

  /** Retiring a replaced or rebuilt mailbox: nothing of another mailbox or generation is left
      waiting or releasable, and no claimed, finished or current row is touched. */
  lemma AbandonRetiresTheRest(l: Ledger, org: int, mailbox: int, generation: int, i: nat)
    requires i < |l|
    ensures var e, e' := l[i], AbandonSuperseded(l, org, mailbox, Some(generation))[i];
      && (e'.key.org == org && e'.status in {Pending, Filtered} ==> e'.key.mailbox == mailbox && e'.key.generation == generation)
      && (e.status in {Claimed, Done, Failed} || e.key.org != org || (e.key.mailbox == mailbox && e.key.generation == generation) ==> e' == e)
      && e' == e.(status := e'.status)
  {}

  /** Every statement but a record keeps the same messages in the same rows. */
  lemma StatementsKeepKeys(l: Ledger, org: int, mailbox: int, generation: int, run: RunId, to: RunId, limit: int, maxAttempts: nat, done: set<int>, retry: set<int>, id: int)
    ensures SameKeys(l, Claim(l, org, mailbox, generation, run, limit)) && SameKeys(l, MarkDispatched(l, run)) && SameKeys(l, Release(l, run, maxAttempts))
    ensures SameKeys(l, Complete(l, run, done)) && SameKeys(l, ResolveRetry(l, run, to, retry, done))
    ensures SameKeys(l, AbandonSuperseded(l, org, mailbox, Some(generation))) && SameKeys(l, AbandonSuperseded(l, org, mailbox, None))
    ensures SameKeys(l, ReleaseFiltered(l, org, id))
  {}
}
