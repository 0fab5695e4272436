/** New-mail detection for one org's mailbox (`ui/backend/email_trigger.py`): a UID cursor and
    the ledger rows recorded with it, one commit at a time, with a crash possible after any. */
module Detection {
  import opened Basics
  import opened InboxLedger
  import Sorting

  const ORG: int := 1
  const MAILBOX: int := 1
  const DETECT_MULTIPLIER: nat := 10

  /** The server's side: UIDVALIDITY, UIDNEXT and the messages there. */
  datatype Mail = Mail(validity: int, next: int, present: set<int>)

  /** Where a poll cycle is, with the trigger fields it loaded: nowhere, past the load, or
      holding the mailbox's answer. */
  datatype Poll =
    | Idle
    | Loaded(cursor: int, validity: Option<int>)
    | Stated(cursor: int, validity: Option<int>, answered: int, top: int)
    | Checked(cursor: int, validity: Option<int>, answered: int, top: int, found: set<int>)

  /** The last four fields are for the record. `base` is the last baseline; every message after
      it and up to `swept` was looked at, by a search whose batch was committed while the trigger
      was still the one it had loaded; `passed` has each message a committed batch found there. */
  datatype World = World(
    mail: Mail, cursor: int, validity: Option<int>, ledger: Ledger, poll: Poll, base: int, swept: int, passed: set<Key>)

  // ------------------------------------------------------------------ the mailbox's answers

  function Highest(present: set<int>): set<int> {
    var top := Newest(present);
    if top.Some? then {top.value} else {}
  }

  /** `UID SEARCH n:*`: the messages from `n` on, and always the last one there is. */
  function Search(m: Mail, n: int): set<int> { (set u | u in m.present && u >= n) + Highest(m.present) }

  function Above(uids: set<int>, n: int): set<int> { set u | u in uids && u > n }

  /** What `check_mailbox` reports above the cursor. */
  function NewUids(m: Mail, cursor: int, top: int): set<int> {
    if top <= cursor then {} else Above(Search(m, cursor + 1), cursor)
  }

  /** The extra message the search always includes is never reported twice. */
  lemma SearchIsFiltered(m: Mail, cursor: int, top: int)
    ensures top > cursor ==> NewUids(m, cursor, top) == Above(m.present, cursor)
  {}

  /** `sorted(new_uids)[: batch_size() * 10]` */
  function Detected(found: set<int>, batchSize: nat): (uids: seq<int>)
    ensures forall i, j :: 0 <= i < j < |uids| ==> uids[i] < uids[j]
    ensures forall u :: u in uids ==> u in found
    ensures forall u, v :: u in uids && v in found && v <= u ==> v in uids
    ensures |uids| == if |found| <= batchSize * DETECT_MULTIPLIER then |found| else batchSize * DETECT_MULTIPLIER
    ensures found != {} && batchSize > 0 ==> uids != []
  {
    var all := Sorting.Sort(found, (a: int, b: int) => a < b);
    assert forall i, j :: 0 <= i < j < |all| ==> ((a: int, b: int) => a < b)(all[i], all[j]);
    var n := if |all| <= batchSize * DETECT_MULTIPLIER then |all| else batchSize * DETECT_MULTIPLIER;
    all[..n]
  }

  lemma {:induction false} AscendingSize(uids: seq<int>)
    requires forall i, j :: 0 <= i < j < |uids| ==> uids[i] < uids[j]
    ensures |set u | u in uids| == |uids|
    decreases |uids|
  {
    if uids != [] {
      var n := |uids| - 1;
      AscendingSize(uids[..n]);
      assert (set u | u in uids) == (set u | u in uids[..n]) + {uids[n]};
    }
  }

  lemma SizeUpTo(found: set<int>, uids: seq<int>, end: int)
    requires uids != [] && end == uids[|uids| - 1] && forall i, j :: 0 <= i < j < |uids| ==> uids[i] < uids[j]
    requires forall u :: u in uids <==> u in found && u <= end
    ensures |set u | u in found && u <= end| == |uids|
  {
    AscendingSize(uids);
    assert (set u | u in uids) == set u | u in found && u <= end;
  }

  /** A batch is the oldest messages found, all of them or as many as the limit lets through. */
  lemma BatchIsOldest(found: set<int>, batchSize: nat)
    requires found != {} && batchSize > 0
    ensures var uids := Detected(found, batchSize);
      |set u | u in found && u <= uids[|uids| - 1]| == |uids| && (|uids| == |found| || |uids| == batchSize * DETECT_MULTIPLIER < |found|)
  {
    var uids := Detected(found, batchSize);
    forall u ensures u in uids <==> u in found && u <= uids[|uids| - 1] { InBatch(found, uids, u); }
    SizeUpTo(found, uids, uids[|uids| - 1]);
  }

  lemma InBatch(found: set<int>, uids: seq<int>, u: int)
    requires uids != [] && forall i, j :: 0 <= i < j < |uids| ==> uids[i] < uids[j]
    requires forall x :: x in uids ==> x in found
    requires forall x, y :: x in uids && y in found && y <= x ==> y in uids
    ensures u in uids <==> u in found && u <= uids[|uids| - 1]
  {
    assert uids[|uids| - 1] in uids;
  }

  // ------------------------------------------------------------------ steps

  datatype Step =
    | Arrive
    | Expunge(uid: int)
    | Rebuild(validity: int, next: int, present: set<int>)
    | Load
    | Status
    | SearchNew
    | Commit(batchSize: nat, rejected: set<int>)
    | Crash
    | Enable(validity: int, top: int)
    | LedgerWork(ledger: Ledger)

  /** The trigger is still at or after where this cycle's search began, under its validity. */
  predicate InForce(w: World) {
    w.poll.Checked? && w.validity == w.poll.validity && w.poll.cursor <= w.swept
  }

  function KeyOf(validity: int, u: int): Key { Key(ORG, MAILBOX, validity, u) }

  function UpTo(found: set<int>, validity: int, end: int): set<Key> { set u | u in found && u <= end :: KeyOf(validity, u) }

  /** The batch up to `end`: rows and cursor in one commit. Nothing of the trigger is read again. */
  function Advanced(w: World, end: int, ledger: Ledger): World
    requires w.poll.Checked?
  {
    w.(poll := Idle, cursor := end, ledger := ledger, swept := if InForce(w) && end > w.swept then end else w.swept,
       passed := w.passed + UpTo(w.poll.found, w.poll.answered, end))
  }

  /** A new baseline. The ORM leaves out a column whose value is the loaded one, so a cursor
      loaded at the answer is not written. */
  function Rebaselined(w: World): World
    requires w.poll.Checked?
  {
    var p := w.poll;
    w.(poll := Idle, cursor := if p.top == p.cursor then w.cursor else p.top, validity := Some(p.answered),
       base := p.top, swept := p.top, ledger := AbandonSuperseded(w.ledger, ORG, MAILBOX, Some(p.answered)))
  }

  function CommitDetection(w: World, batchSize: nat, rejected: set<int>): World {
    if !w.poll.Checked? then w
    else
      var p := w.poll;
      if p.validity != Some(p.answered) then Rebaselined(w)
      else if p.found == {} || batchSize == 0 then w.(poll := Idle)
      else
        var uids := Detected(p.found, batchSize);
        Advanced(w, uids[|uids| - 1], Record(w.ledger, ORG, MAILBOX, p.answered, uids, rejected))
  }

  function Apply(w: World, s: Step): World {
    match s
    case Arrive => w.(mail := w.mail.(next := w.mail.next + 1, present := w.mail.present + {w.mail.next}))
    case Expunge(u) => w.(mail := w.mail.(present := w.mail.present - {u}))
    case Rebuild(v, next, present) => w.(mail := Mail(v, next, present))
    case Load => w.(poll := Loaded(w.cursor, w.validity))
    case Status => if w.poll.Loaded? then w.(poll := Stated(w.poll.cursor, w.poll.validity, w.mail.validity, w.mail.next - 1)) else w
    case SearchNew =>
      if w.poll.Stated?
      then w.(poll := Checked(w.poll.cursor, w.poll.validity, w.poll.answered, w.poll.top, NewUids(w.mail, w.poll.cursor, w.poll.top)))
      else w
    case Commit(batchSize, rejected) => CommitDetection(w, batchSize, rejected)
    case Crash => w.(poll := Idle)
    case Enable(v, top) => w.(cursor := top, validity := Some(v), base := top, swept := top)
    case LedgerWork(l) => w.(ledger := l)
  }

  /** RFC 3501, section 2.3.1.1: a UID is below UIDNEXT, and a rebuilt mailbox has a greater
      UIDVALIDITY, never while a connection is open on it. An enable takes its baseline from a
      status answer, be it an old one, and may come at any moment of a poll cycle. */
  predicate Fits(w: World, s: Step) {
    match s
    case Rebuild(v, next, present) => !w.poll.Stated? && v > w.mail.validity && forall u :: u in present ==> u < next
    case Enable(v, top) => v <= w.mail.validity && (v == w.mail.validity ==> top < w.mail.next)
    case LedgerWork(l) => SameKeys(w.ledger, l)
    case Commit(batchSize, _) => batchSize > 0
    case Load => w.poll.Idle?
    case _ => true
  }

  // ------------------------------------------------------------------ the invariant

  predicate MailInv(w: World) {
    && (forall u :: u in w.mail.present ==> u < w.mail.next)
    && (w.validity.Some? ==> w.validity.value <= w.mail.validity)
    && (w.validity == Some(w.mail.validity) ==> w.swept < w.mail.next)
    && w.base <= w.swept
  }

  /** What a cycle in flight knows: of the mailbox it asked, its search missed nothing that is
      still there, up to the last message it found. Nothing about the trigger as it is by now. */
  predicate PollInv(w: World) {
    && (!w.poll.Idle? && w.poll.validity.Some? ==> w.validity.Some?)
    && (w.poll.Stated? ==> w.poll.answered == w.mail.validity && w.poll.top < w.mail.next)
    && (w.poll.Checked? ==>
          && w.poll.answered <= w.mail.validity
          && (forall u :: u in w.poll.found ==> u > w.poll.cursor)
          && (w.poll.answered == w.mail.validity ==>
                && w.poll.top < w.mail.next
                && (forall u :: u in w.poll.found ==> u < w.mail.next)
                && Misses(w.mail.present, w.poll.found, w.poll.cursor)))
  }

  /** No message present, above the cursor and not after something found, was left out. */
  predicate Misses(present: set<int>, found: set<int>, cursor: int) {
    forall u, v :: u in present && v in found && cursor < u <= v ==> u in found
  }

  ghost predicate Recorded(l: Ledger, passed: set<Key>) { OneRowEach(l) && forall k :: Has(l, k) <==> k in passed }

  /** Durability: the ledger has exactly the messages passed, once each, and what is still in
      the mailbox between baseline and sweep is among them. */
  ghost predicate Durable(w: World) {
    && Recorded(w.ledger, w.passed)
    && (w.validity == Some(w.mail.validity) ==>
          forall u :: u in w.mail.present && w.base < u <= w.swept ==> KeyOf(w.mail.validity, u) in w.passed)
  }

  ghost predicate Inv(w: World) { MailInv(w) && PollInv(w) && Durable(w) }

  lemma SameKeysHas(l: Ledger, l': Ledger)
    requires SameKeys(l, l')
    ensures OneRowEach(l) ==> OneRowEach(l')
    ensures forall k :: Has(l, k) <==> Has(l', k)
  {}

  /** A batch is what the search found up to its end. */
  lemma BatchIsUpTo(found: set<int>, batchSize: nat, validity: int, k: Key)
    requires found != {} && batchSize > 0
    ensures var uids := Detected(found, batchSize);
      k in UpTo(found, validity, uids[|uids| - 1]) <==> k == KeyOf(validity, k.uid) && k.uid in uids
  {
    var uids := Detected(found, batchSize);
    assert uids[|uids| - 1] in uids;
  }

  lemma RecordsKey(l: Ledger, passed: set<Key>, validity: int, found: set<int>, batchSize: nat, rejected: set<int>, k: Key)
    requires Recorded(l, passed) && found != {} && batchSize > 0
    ensures var uids := Detected(found, batchSize);
      Has(Record(l, ORG, MAILBOX, validity, uids, rejected), k) <==> k in passed + UpTo(found, validity, uids[|uids| - 1])
  {
    BatchIsUpTo(found, batchSize, validity, k);
    RecordAddsExactly(l, ORG, MAILBOX, validity, Detected(found, batchSize), rejected, k);
  }

  /** Recording it adds exactly that to the ledger. */
  lemma RecordsUpTo(l: Ledger, passed: set<Key>, validity: int, found: set<int>, batchSize: nat, rejected: set<int>)
    requires Recorded(l, passed) && found != {} && batchSize > 0
    ensures var uids := Detected(found, batchSize);
      Recorded(Record(l, ORG, MAILBOX, validity, uids, rejected), passed + UpTo(found, validity, uids[|uids| - 1]))
  {
    forall k { RecordsKey(l, passed, validity, found, batchSize, rejected, k); }
    RecordIsDurable(l, ORG, MAILBOX, validity, Detected(found, batchSize), rejected);
  }

  /** A batch taken in force looked at every message it takes the sweep past. */
  lemma SweepMissesNothing(w: World, end: int, u: int)
    requires Inv(w) && InForce(w) && w.poll.validity == Some(w.poll.answered) && w.validity == Some(w.mail.validity)
    requires end in w.poll.found && u in w.mail.present && w.base < u <= end
    ensures KeyOf(w.mail.validity, u) in w.passed + UpTo(w.poll.found, w.poll.answered, end)
  {
    if u > w.swept { assert u in w.poll.found; }
  }

  /** A detecting commit records the work and moves the cursor as one, truncated or not. */
  lemma DetectionIsDurable(w: World, batchSize: nat, rejected: set<int>)
    requires Inv(w) && w.poll.Checked? && w.poll.validity == Some(w.poll.answered) && w.poll.found != {} && batchSize > 0
    ensures var w' := CommitDetection(w, batchSize, rejected); var p := w.poll;
      && Inv(w') && w'.cursor in p.found && w'.cursor > p.cursor
      && (forall k :: Has(w'.ledger, k) <==> Has(w.ledger, k) || exists u :: u in p.found && u <= w'.cursor && k == KeyOf(p.answered, u))
  {
    var uids := Detected(w.poll.found, batchSize);
    var end, w' := uids[|uids| - 1], CommitDetection(w, batchSize, rejected);
    assert end in uids;
    RecordsUpTo(w.ledger, w.passed, w.poll.answered, w.poll.found, batchSize, rejected);
    if w.validity == Some(w.mail.validity) && InForce(w) && end > w.swept {
      forall u | u in w.mail.present && w.base < u <= end ensures KeyOf(w.mail.validity, u) in w'.passed { SweepMissesNothing(w, end, u); }
    }
  }

  lemma CommitKeeps(w: World, batchSize: nat, rejected: set<int>)
    requires Inv(w) && batchSize > 0
    ensures Inv(CommitDetection(w, batchSize, rejected))
  {
    if w.poll.Checked? {
      if w.poll.validity != Some(w.poll.answered) {
        SameKeysHas(w.ledger, AbandonSuperseded(w.ledger, ORG, MAILBOX, Some(w.poll.answered)));
      } else if w.poll.found != {} {
        DetectionIsDurable(w, batchSize, rejected);
      }
    }
  }

  lemma SearchKeeps(w: World)
    requires Inv(w)
    ensures Inv(Apply(w, SearchNew))
  {}

  lemma MailKeeps(w: World, s: Step)
    requires Inv(w) && Fits(w, s) && (s.Arrive? || s.Expunge? || s.Rebuild?)
    ensures Inv(Apply(w, s))
  {}

  /** Every step, an enable in the middle of a poll cycle included. */
  lemma StepKeeps(w: World, s: Step)
    requires Inv(w) && Fits(w, s)
    ensures Inv(Apply(w, s))
  {
    match s
    case SearchNew => SearchKeeps(w);
    case Commit(batchSize, rejected) => CommitKeeps(w, batchSize, rejected);
    case LedgerWork(l) => SameKeysHas(w.ledger, l);
    case Arrive => MailKeeps(w, s);
    case Expunge(u) => MailKeeps(w, s);
    case Rebuild(v, next, present) => MailKeeps(w, s);
    case _ =>
  }

  // ------------------------------------------------------------------ when the cursor is the sweep

  /** The cursor is where the sweep is: everything between the baseline and it was looked at. */
  predicate Sound(w: World) { w.base <= w.cursor == w.swept }

  /** What the commit could check before it writes: the batch ends where the cursor is by now; or
      the validity is still the loaded one, and the cursor lies inside the batch. A new baseline
      has to be written, or to be there. */
  predicate Safe(w: World, batchSize: nat) {
    if !w.poll.Checked? then true
    else if w.poll.validity != Some(w.poll.answered) then w.poll.top != w.poll.cursor || w.cursor == w.poll.top
    else if w.poll.found == {} || batchSize == 0 then true
    else
      var uids := Detected(w.poll.found, batchSize);
      var end := uids[|uids| - 1];
      end == w.cursor || (w.validity == w.poll.validity && w.poll.cursor <= w.cursor <= end)
  }

  /** Exactly then the commit leaves the cursor on the sweep. */
  lemma CommitIsSoundIff(w: World, batchSize: nat, rejected: set<int>)
    requires Inv(w) && Sound(w) && batchSize > 0
    ensures Sound(CommitDetection(w, batchSize, rejected)) <==> Safe(w, batchSize)
  {}

  /** Otherwise the cursor goes back behind the new baseline, or jumps over messages nobody
      looked at: the first of them is lost if it is there, whatever else the mailbox holds. */
  lemma UnsafeCommitLoses(w: World, batchSize: nat, rejected: set<int>, next: int)
    requires Inv(w) && Sound(w) && w.poll.Checked? && w.poll.validity == Some(w.poll.answered) && w.poll.found != {} && batchSize > 0
    requires !Safe(w, batchSize) && w.validity.Some? && w.validity.value >= w.poll.answered
    requires next > w.poll.top && forall u :: u in w.poll.found ==> u < next
    ensures var u := w.cursor + 1; var w0 := w.(mail := Mail(w.validity.value, next, {u}), ledger := [], passed := {});
      var w' := CommitDetection(w0, batchSize, rejected);
      || w'.cursor < w0.cursor
      || (Inv(w0) && Sound(w0) && Inv(w') && w'.validity == Some(w'.mail.validity) && u in w'.mail.present && w'.base < u <= w'.cursor
          && !Has(w'.ledger, KeyOf(w'.mail.validity, u)))
  {
    var u := w.cursor + 1;
    var w0 := w.(mail := Mail(w.validity.value, next, {u}), ledger := [], passed := {});
    var uids := Detected(w.poll.found, batchSize);
    assert uids[|uids| - 1] in uids;
    if uids[|uids| - 1] > w.cursor {
      assert Inv(w0);
      DetectionIsDurable(w0, batchSize, rejected);
    }
  }

  /** While no enable comes between load and commit, every commit is safe. */
  predicate Undisturbed(w: World) {
    Sound(w) && (!w.poll.Idle? ==> w.poll.cursor == w.cursor && w.poll.validity == w.validity)
  }

  lemma UndisturbedIsSafe(w: World, s: Step)
    requires Inv(w) && Fits(w, s) && Undisturbed(w) && (s.Enable? ==> w.poll.Idle?)
    ensures Undisturbed(Apply(w, s)) && (s.Commit? ==> Safe(w, s.batchSize))
  {
    if s.Commit? && w.poll.Checked? && w.poll.found != {} {
      var uids := Detected(w.poll.found, s.batchSize);
      assert uids[|uids| - 1] in uids;
    }
  }

  predicate NewBaseline(w: World, s: Step) {
    s.Enable? || (s.Commit? && w.poll.Checked? && w.poll.validity != Some(w.poll.answered))
  }

  /** Between baselines the cursor goes back in a commit that is not safe, if at all; and
      recorded work stays recorded through every step. */
  lemma CursorNeverGoesBack(w: World, s: Step)
    requires Inv(w) && Fits(w, s)
    ensures Sound(w) && (s.Commit? ==> Safe(w, s.batchSize)) && !NewBaseline(w, s)
      ==> Apply(w, s).cursor >= w.cursor && Sound(Apply(w, s))
    ensures forall k :: Has(w.ledger, k) ==> Has(Apply(w, s).ledger, k)
  {
    StepKeeps(w, s);
    assert w.passed <= Apply(w, s).passed;
  }

  // ------------------------------------------------------------------ any run

  function Run(w: World, steps: seq<Step>): World
    decreases |steps|
  {
    if steps == [] then w else Run(Apply(w, steps[0]), steps[1..])
  }

  predicate RunFits(w: World, steps: seq<Step>)
    decreases |steps|
  {
    steps == [] || (Fits(w, steps[0]) && RunFits(Apply(w, steps[0]), steps[1..]))
  }

  /** Every commit of the run is safe when it is made. */
  predicate RunSafe(w: World, steps: seq<Step>)
    decreases |steps|
  {
    steps == [] || ((steps[0].Commit? ==> Safe(w, steps[0].batchSize)) && RunSafe(Apply(w, steps[0]), steps[1..]))
  }

  /** Every enable of the run falls between poll cycles. */
  predicate EnablesBetweenPolls(w: World, steps: seq<Step>)
    decreases |steps|
  {
    steps == [] || ((steps[0].Enable? ==> w.poll.Idle?) && EnablesBetweenPolls(Apply(w, steps[0]), steps[1..]))
  }

  /** A trigger before its first baseline. */
  function Start(mail: Mail): World { World(mail, 0, None, [], Idle, 0, 0, {}) }

  lemma {:induction false} DurableThroughout(w: World, steps: seq<Step>)
    requires Inv(w) && RunFits(w, steps)
    ensures Inv(Run(w, steps))
    decreases |steps|
  {
    if steps != [] {
      StepKeeps(w, steps[0]);
      DurableThroughout(Apply(w, steps[0]), steps[1..]);
    }
  }

  lemma {:induction false} SoundThroughout(w: World, steps: seq<Step>)
    requires Inv(w) && Sound(w) && RunFits(w, steps) && RunSafe(w, steps)
    ensures Sound(Run(w, steps))
    decreases |steps|
  {
    if steps != [] {
      StepKeeps(w, steps[0]);
      if steps[0].Commit? { CommitIsSoundIff(w, steps[0].batchSize, steps[0].rejected); }
      SoundThroughout(Apply(w, steps[0]), steps[1..]);
    }
  }

  lemma {:induction false} EnablesBetweenPollsAreSafe(w: World, steps: seq<Step>)
    requires Inv(w) && Undisturbed(w) && RunFits(w, steps) && EnablesBetweenPolls(w, steps)
    ensures RunSafe(w, steps)
    decreases |steps|
  {
    if steps != [] {
      StepKeeps(w, steps[0]);
      UndisturbedIsSafe(w, steps[0]);
      EnablesBetweenPollsAreSafe(Apply(w, steps[0]), steps[1..]);
    }
  }

  /** How many rows a message has. */
  function RowsFor(l: Ledger, k: Key): nat {
    if l == [] then 0 else RowsFor(l[..|l| - 1], k) + (if l[|l| - 1].key == k then 1 else 0)
  }

  lemma {:induction false} OneRow(l: Ledger, k: Key)
    requires OneRowEach(l)
    ensures RowsFor(l, k) == if Has(l, k) then 1 else 0
  {
    if l != [] {
      var n := |l| - 1;
      OneRow(l[..n], k);
      if Has(l[..n], k) {
        PrefixHas(l[..n], l, k);
        var i :| 0 <= i < n && l[..n][i].key == k;
        assert l[i].key != l[n].key;
      } else if l[n].key == k {
        assert Has(l, k);
      } else {
        forall i | 0 <= i < |l| ensures l[i].key != k { if i < n { assert l[..n][i].key != k; } }
      }
    }
  }

  /** Across any polls, arrivals, deletions, rebuilds, enables, filter decisions and crashes: a
      message has one row if a committed batch found it and none otherwise; one still in the
      mailbox has its row once swept, and the sweep is the cursor if every commit was safe. */
  lemma EveryMessagePassedHasOneRow(mail: Mail, steps: seq<Step>, u: int)
    requires (forall x :: x in mail.present ==> x < mail.next) && RunFits(Start(mail), steps)
    ensures var w := Run(Start(mail), steps);
      && (forall k :: RowsFor(w.ledger, k) == if k in w.passed then 1 else 0)
      && (w.validity == Some(w.mail.validity) && u in w.mail.present && w.base < u <= w.swept ==> RowsFor(w.ledger, KeyOf(w.mail.validity, u)) == 1)
      && (RunSafe(Start(mail), steps) || EnablesBetweenPolls(Start(mail), steps) ==> w.base <= w.cursor == w.swept)
  {
    DurableThroughout(Start(mail), steps);
    var w := Run(Start(mail), steps);
    forall k ensures RowsFor(w.ledger, k) == if k in w.passed then 1 else 0 { OneRow(w.ledger, k); }
    if EnablesBetweenPolls(Start(mail), steps) { EnablesBetweenPollsAreSafe(Start(mail), steps); }
    if RunSafe(Start(mail), steps) { SoundThroughout(Start(mail), steps); }
  }

  // ------------------------------------------------------------------ deleted in time

  /** No row, and none to come: not in the mailbox, and in no answer still to be committed. */
  predicate Missing(w: World, validity: int, u: int) {
    && !Has(w.ledger, KeyOf(validity, u)) && validity <= w.mail.validity
    && (validity == w.mail.validity ==> u < w.mail.next && u !in w.mail.present)
    && (w.poll.Checked? && w.poll.answered == validity ==> u !in w.poll.found)
  }

  /** A message left over by a truncated batch and deleted before the next search. */
  lemma LeftOverDeleted(w: World, batchSize: nat, rejected: set<int>, u: int)
    requires Inv(w) && w.poll.Checked? && w.poll.validity == Some(w.poll.answered) && w.poll.answered == w.mail.validity && batchSize > 0
    requires u in w.poll.found && u !in Detected(w.poll.found, batchSize) && !Has(w.ledger, KeyOf(w.poll.answered, u))
    ensures var w' := Apply(CommitDetection(w, batchSize, rejected), Expunge(u));
      u > w'.cursor && Missing(w', w.poll.answered, u)
  {
    var uids := Detected(w.poll.found, batchSize);
    assert uids[|uids| - 1] in uids;
    DetectionIsDurable(w, batchSize, rejected);
  }

  lemma StaysMissing(w: World, s: Step, validity: int, u: int)
    requires Inv(w) && Fits(w, s) && Missing(w, validity, u)
    ensures Missing(Apply(w, s), validity, u)
  {
    match s
    case Commit(batchSize, rejected) =>
      if w.poll.Checked? && w.poll.validity == Some(w.poll.answered) && w.poll.found != {} {
        DetectionIsDurable(w, batchSize, rejected);
      } else if w.poll.Checked? && w.poll.validity != Some(w.poll.answered) {
        SameKeysHas(w.ledger, AbandonSuperseded(w.ledger, ORG, MAILBOX, Some(w.poll.answered)));
      }
    case LedgerWork(l) => SameKeysHas(w.ledger, l);
    case SearchNew => if w.poll.Stated? { SearchIsFiltered(w.mail, w.poll.cursor, w.poll.top); }
    case _ =>
  }

  /** Such a message never gets a row, whatever happens next. */
  lemma {:induction false} MissingForEver(w: World, steps: seq<Step>, validity: int, u: int)
    requires Inv(w) && RunFits(w, steps) && Missing(w, validity, u)
    ensures RowsFor(Run(w, steps).ledger, KeyOf(validity, u)) == 0
    decreases |steps|
  {
    if steps == [] {
      OneRow(w.ledger, KeyOf(validity, u));
    } else {
      StepKeeps(w, steps[0]);
      StaysMissing(w, steps[0], validity, u);
      MissingForEver(Apply(w, steps[0]), steps[1..], validity, u);
    }
  }

  // ------------------------------------------------------------------ an enable during a poll

  lemma DetectedOne(u: int)
    ensures Detected({u}, 20) == [u]
  {
    var uids := Detected({u}, 20);
    assert uids[0] in uids && uids[|uids| - 1] in uids;
  }

  /** A run of one step more. */
  lemma Then(w: World, s: Step, rest: seq<Step>, steps: seq<Step>)
    requires steps == [s] + rest
    ensures Run(w, steps) == Run(Apply(w, s), rest)
    ensures RunFits(w, steps) <==> Fits(w, s) && RunFits(Apply(w, s), rest)
  {
    assert steps[1..] == rest;
  }

  const FIRST: World := Start(Mail(1, 1, {}))
  const FOUND: World := World(Mail(1, 2, {1}), 0, Some(1), [], Checked(0, Some(1), 1, 1, {1}), 0, 0, {})

  /** The first cycle's baseline, a message, and a second cycle that finds it. */
  function UntilFound(rest: seq<Step>): seq<Step> {
    [Load] + ([Status] + ([SearchNew] + ([Commit(20, {})] + ([Arrive] + ([Load] + ([Status] + ([SearchNew] + rest)))))))
  }

  lemma FindsFirst(rest: seq<Step>)
    ensures Run(FIRST, UntilFound(rest)) == Run(FOUND, rest)
    ensures RunFits(FIRST, UntilFound(rest)) <==> RunFits(FOUND, rest)
  {
    var w4 := World(Mail(1, 1, {}), 0, Some(1), [], Idle, 0, 0, {});
    var w5 := World(Mail(1, 2, {1}), 0, Some(1), [], Idle, 0, 0, {});
    var r8 := [SearchNew] + rest;
    var r7 := [Status] + r8;
    var r6 := [Load] + r7;
    var r5 := [Arrive] + r6;
    var r4 := [Commit(20, {})] + r5;
    var r3 := [SearchNew] + r4;
    var r2 := [Status] + r3;
    Then(FIRST, Load, r2, [Load] + r2);
    Then(FIRST.(poll := Loaded(0, None)), Status, r3, r2);
    Then(FIRST.(poll := Stated(0, None, 1, 0)), SearchNew, r4, r3);
    Then(FIRST.(poll := Checked(0, None, 1, 0, {})), Commit(20, {}), r5, r4);
    assert Apply(FIRST.(poll := Checked(0, None, 1, 0, {})), Commit(20, {})) == w4;
    Then(w4, Arrive, r6, r5);
    assert Apply(w4, Arrive) == w5;
    Then(w5, Load, r7, r6);
    Then(w5.(poll := Loaded(0, Some(1))), Status, r8, r7);
    Then(w5.(poll := Stated(0, Some(1), 1, 1)), SearchNew, rest, r8);
    assert Apply(w5.(poll := Stated(0, Some(1), 1, 1)), SearchNew) == FOUND by { FoundOne(); }
  }

  lemma FoundOne()
    ensures NewUids(Mail(1, 2, {1}), 0, 1) == {1}
  {
    SearchIsFiltered(Mail(1, 2, {1}), 0, 1);
    assert Above({1}, 0) == {1};
  }

  /** Rebuilt, enabled anew at 0, and message 1 of the new mailbox arrives. */
  function Replace(rest: seq<Step>): seq<Step> { [Rebuild(2, 1, {})] + ([Enable(2, 0)] + ([Arrive] + rest)) }

  lemma ReplacedUnderPoll(rest: seq<Step>)
    ensures Run(FOUND, Replace(rest)) == Run(FOUND.(mail := Mail(2, 2, {1}), validity := Some(2)), rest)
    ensures RunFits(FOUND, Replace(rest)) <==> RunFits(FOUND.(mail := Mail(2, 2, {1}), validity := Some(2)), rest)
  {
    var r2 := [Arrive] + rest;
    var r1 := [Enable(2, 0)] + r2;
    var a := FOUND.(mail := Mail(2, 1, {}));
    var b := a.(validity := Some(2));
    Then(FOUND, Rebuild(2, 1, {}), r1, Replace(rest));
    Then(a, Enable(2, 0), r2, r1);
    assert Apply(a, Enable(2, 0)) == b;
    Then(b, Arrive, rest, r2);
    assert Apply(b, Arrive) == b.(mail := Mail(2, 2, {1}));
  }

  /** The old answer still takes the cursor past it, unrecorded. */
  lemma CursorCanJumpAhead()
    ensures var steps := UntilFound(Replace([Commit(20, {})])); var w := Run(FIRST, steps);
      && RunFits(FIRST, steps) && w.validity == Some(w.mail.validity)
      && 1 in w.mail.present && w.base < 1 <= w.cursor && RowsFor(w.ledger, KeyOf(w.mail.validity, 1)) == 0
  {
    var c := FOUND.(mail := Mail(2, 2, {1}), validity := Some(2));
    FindsFirst(Replace([Commit(20, {})]));
    ReplacedUnderPoll([Commit(20, {})]);
    Then(c, Commit(20, {}), [], [Commit(20, {})]);
    JumpsAhead(c);
  }

  lemma JumpsAhead(c: World)
    requires c == FOUND.(mail := Mail(2, 2, {1}), validity := Some(2))
    ensures var w := Apply(c, Commit(20, {}));
      w == c.(poll := Idle, cursor := 1, ledger := w.ledger, passed := w.passed) && RowsFor(w.ledger, KeyOf(2, 1)) == 0
  {
    DetectedOne(1);
    assert Record([], ORG, MAILBOX, 1, [1], {}) == [Event(KeyOf(1, 1), Pending, None, 0)];
    assert RowsFor([Event(KeyOf(1, 1), Pending, None, 0)][..0], KeyOf(2, 1)) == 0;
  }

  /** A second message and an enable at 2 come before the commit: the cursor goes back to 1. */
  lemma CursorCanGoBack()
    ensures var w := Run(FIRST, UntilFound([Arrive, Enable(1, 2)]));
      w.cursor == 2 && Fits(w, Commit(20, {})) && Apply(w, Commit(20, {})).cursor == 1
    ensures RunFits(FIRST, UntilFound([Arrive, Enable(1, 2)]))
  {
    var rest := [Arrive, Enable(1, 2)];
    FindsFirst(rest);
    var a := FOUND.(mail := Mail(1, 3, {1, 2}));
    Then(FOUND, Arrive, rest[1..], rest);
    assert Apply(FOUND, Arrive) == a;
    Then(a, Enable(1, 2), [], rest[1..]);
    DetectedOne(1);
  }
}
