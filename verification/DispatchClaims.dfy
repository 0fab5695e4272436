/** Who answers for a claimed message, and what a run that never went out costs. */
module DispatchClaims {
  import opened Basics
  import opened InboxLedger
  import opened Dispatch
  import opened DispatchSafety

  // ------------------------------------------------------------------ the invariant

  /** The run a thread has in hand. */
  function RunOf(p: Phase): Option<RunId> {
    if p.Holding? || p.Built? || p.Submitting? then Some(p.run) else None
  }

  /** A thread is still dispatching the run, or it is out and live. */
  predicate Answered(w: World, r: RunId) {
    (exists t :: t in w.threads && RunOf(w.threads[t].phase) == Some(r)) || Live(w, r)
  }

  predicate EventInv(c: Settings, w: World, e: Event) {
    && (e.run.Some? ==> e.run.value < w.nextRun)
    && (e.status == Pending ==> e.run == None)
    && (e.status == Pending || e.status == Filtered ==> e.attempts < c.maxAttempts)
    && (e.status == Claimed ==> e.run.Some? && Answered(w, e.run.value))
  }

  /** What a thread knows of the run it has in hand: registered, and live once swapped in; an
      automatic claim has attempts left, and a retry has taken nothing over yet. */
  predicate ThreadInv(c: Settings, w: World, k: Thread) {
    && (k.phase.Holding? ==> k.kind.Auto?)
    && (k.phase.Holding? || k.phase.Built? ==>
          && Runs(w, k.phase.run) && k.phase.run !in w.released
          && forall i :: 0 <= i < |w.ledger| && w.ledger[i].run == Some(k.phase.run) ==> k.kind.Auto? && w.ledger[i].attempts < c.maxAttempts)
    && (k.phase.Submitting? ==> Live(w, k.phase.run))
  }

  ghost predicate Accounted(c: Settings, w: World) {
    && c.maxAttempts > 0
    && (forall i :: 0 <= i < |w.ledger| ==> EventInv(c, w, w.ledger[i]))
    && (forall t :: t in w.threads ==> ThreadInv(c, w, w.threads[t]))
    && (forall r :: r in w.released ==> r < w.nextRun)
  }

  // ------------------------------------------------------------------ what undoing costs

  /** A build failure: nothing counted, nothing charged, and the whole claim pending again. */
  lemma BuildFailureIsFree(c: Settings, w: World, t: ThreadId)
    requires Accounted(c, w) && t in w.threads && w.threads[t].phase.Holding?
    ensures var w' := BuildStep(c, w, t, false); var r := w.threads[t].phase.run;
      && w'.trigger == w.trigger && |w'.ledger| == |w.ledger| && t !in w'.threads && w'.lock == None
      && forall i :: 0 <= i < |w.ledger| ==> w'.ledger[i] == if HeldBy(w.ledger[i], r) then w.ledger[i].(status := Pending, run := None) else w.ledger[i]
  {}

  /** A swap lost to a disabled trigger: the same. */
  lemma LostSwapIsFree(c: Settings, w: World, t: ThreadId)
    requires Accounted(c, w) && t in w.threads && w.threads[t].phase.Built? && !w.trigger.enabled
    ensures var w' := SwapStep(c, w, t); var r := w.threads[t].phase.run;
      && w'.trigger == w.trigger && |w'.ledger| == |w.ledger| && t !in w'.threads && w'.lock == None
      && forall i :: 0 <= i < |w.ledger| ==>
           w'.ledger[i] == if w.threads[t].kind.Auto? && HeldBy(w.ledger[i], r) then w.ledger[i].(status := Pending, run := None) else w.ledger[i]
  {}

  // ------------------------------------------------------------------ every step

  lemma IdleThreadInv(c: Settings, w: World, k: Thread)
    requires RunOf(k.phase) == None
    ensures ThreadInv(c, w, k)
  {}

  /** A step of the thread that holds the lock: its own state and the messages are left to show. */
  lemma LockedStepKeeps(c: Settings, w: World, w': World, t: ThreadId)
    requires Safe(w) && Accounted(c, w) && t in w.threads && HoldsLock(w.threads[t].phase)
    requires forall x :: x in w'.threads && x != t ==> x in w.threads && w'.threads[x].phase == w.threads[x].phase
    requires t in w'.threads ==> ThreadInv(c, w', w'.threads[t])
    requires forall i :: 0 <= i < |w'.ledger| ==> EventInv(c, w', w'.ledger[i])
    requires forall r :: r in w'.released ==> r < w'.nextRun
    ensures Accounted(c, w')
  {}

  /** Answers that outlive the step. */
  lemma StillAnswered(w: World, w': World, r: RunId)
    requires Answered(w, r)
    requires forall t :: t in w.threads && RunOf(w.threads[t].phase) == Some(r) ==> t in w'.threads && RunOf(w'.threads[t].phase) == Some(r)
    requires Live(w, r) ==> Live(w', r)
    ensures Answered(w', r)
  {}

  /** Steps that leave the messages alone and answers as they were. */
  lemma UntouchedLedger(c: Settings, w: World, w': World)
    requires Accounted(c, w) && w'.ledger == w.ledger && w'.nextRun >= w.nextRun
    requires forall r :: Answered(w, r) ==> Answered(w', r)
    ensures forall i :: 0 <= i < |w'.ledger| ==> EventInv(c, w', w'.ledger[i])
  {}

  lemma ThreadInvMoves(c: Settings, w: World, w': World, k: Thread)
    requires ThreadInv(c, w, k) && w'.ledger == w.ledger && w'.released == w.released && w'.dispatched == w.dispatched
    requires forall r :: Runs(w, r) ==> Runs(w', r)
    ensures ThreadInv(c, w', k)
  {}

  lemma QuietKeeps(c: Settings, w: World, s: Step)
    requires Accounted(c, w) && (s.Begin? || s.Acquire? || s.NewDay? || s.SetEnabled? || s.EvictRun?)
    ensures Accounted(c, Apply(c, w, s))
  {
    var w' := Apply(c, w, s);
    forall r | Answered(w, r) ensures Answered(w', r) { StillAnswered(w, w', r); }
    UntouchedLedger(c, w, w');
    forall t | t in w'.threads ensures ThreadInv(c, w', w'.threads[t]) {
      if RunOf(w'.threads[t].phase) == None {
        IdleThreadInv(c, w', w'.threads[t]);
      } else {
        assert ThreadInv(c, w, w.threads[t]);
        ThreadInvMoves(c, w, w', w.threads[t]);
      }
    }
  }

  /** A thread that has nothing in hand, ending or moving on. */
  lemma EmptyHandedKeeps(c: Settings, w: World, w': World, t: ThreadId)
    requires Safe(w) && Accounted(c, w) && t in w.threads && HoldsLock(w.threads[t].phase) && RunOf(w.threads[t].phase) == None
    requires w'.threads == w.threads - {t} || (t in w'.threads && w'.threads == w.threads[t := w'.threads[t]] && RunOf(w'.threads[t].phase) == None)
    requires w'.ledger == w.ledger && w'.released == w.released && w'.dispatched == w.dispatched && w'.nextRun >= w.nextRun && w'.running == w.running
    ensures Accounted(c, w')
  {}

  lemma GuardKeepsClaims(c: Settings, w: World, t: ThreadId, overdue: bool)
    requires Safe(w) && Accounted(c, w)
    ensures Accounted(c, GuardStep(c, w, t, overdue))
  {
    if At(w, t, Guarding) {
      var last := w.trigger.lastRun;
      if last.Some? && Runs(w, last.value) && overdue {
        WatchdogKeeps(c, w, t, last.value);
      } else {
        EmptyHandedKeeps(c, w, GuardStep(c, w, t, overdue), t);
      }
    }
  }

  /** Under the lock, a claimed message belongs to the thread's own run or to the live one. */
  lemma ClaimedUnderLock(c: Settings, w: World, t: ThreadId, i: nat)
    requires Safe(w) && Accounted(c, w) && t in w.threads && HoldsLock(w.threads[t].phase) && i < |w.ledger| && w.ledger[i].status == Claimed
    ensures w.ledger[i].run.Some? && (w.ledger[i].run == RunOf(w.threads[t].phase) || (Live(w, w.ledger[i].run.value) && w.trigger.lastRun == w.ledger[i].run))
    ensures Cleared(w.threads[t].phase) ==> w.ledger[i].run == RunOf(w.threads[t].phase)
  {}

  /** The watchdog takes the answer away and hands back what it answered for. */
  lemma WatchdogKeeps(c: Settings, w: World, t: ThreadId, r: RunId)
    requires Safe(w) && Accounted(c, w) && At(w, t, Guarding) && w.trigger.lastRun == Some(r) && Runs(w, r)
    ensures Accounted(c, GuardStep(c, w, t, true))
  {
    var w' := GuardStep(c, w, t, true);
    assert w'.ledger == Release(w.ledger, r, c.maxAttempts);
    forall i | 0 <= i < |w'.ledger| ensures EventInv(c, w', w'.ledger[i]) {
      assert EventInv(c, w, w.ledger[i]);
      if w.ledger[i].status == Claimed { ClaimedUnderLock(c, w, t, i); }
    }
    IdleThreadInv(c, w', w'.threads[t]);
    LockedStepKeeps(c, w, w', t);
  }

  lemma ClaimKeepsClaims(c: Settings, w: World, t: ThreadId, overspent: bool, cap: Option<nat>)
    requires Safe(w) && Accounted(c, w)
    ensures Accounted(c, ClaimStep(c, w, t, overspent, cap))
  {
    if At(w, t, Checked) && w.threads[t].kind.Auto? {
      var w' := ClaimStep(c, w, t, overspent, cap);
      if t !in w'.threads {
        EmptyHandedKeeps(c, w, w', t);
      } else {
        var run := w.nextRun;
        assert RunOf(w'.threads[t].phase) == Some(run);
        forall i | 0 <= i < |w'.ledger| ensures EventInv(c, w', w'.ledger[i]) {
          assert EventInv(c, w, w.ledger[i]);
          if w.ledger[i].status == Claimed { ClaimedUnderLock(c, w, t, i); }
        }
        assert ThreadInv(c, w', w'.threads[t]) by { FreshClaim(c, w, w', t, overspent, cap); }
        LockedStepKeeps(c, w, w', t);
      }
    }
  }

  /** What a dispatch will charge is what the run holds. */
  lemma ClaimIsChargedExactly(c: Settings, w: World, t: ThreadId, overspent: bool, cap: Option<nat>)
    requires Accounted(c, w) && At(w, t, Checked) && w.threads[t].kind.Auto? && t in ClaimStep(c, w, t, overspent, cap).threads
    ensures var w' := ClaimStep(c, w, t, overspent, cap); var p := w'.threads[t].phase;
      p.Holding? && p.messages == CountHeld(w'.ledger, p.run) && 0 < p.messages <= c.batchSize
  {
    forall i | 0 <= i < |w.ledger| ensures w.ledger[i].run != Some(w.nextRun) { assert EventInv(c, w, w.ledger[i]); }
    ClaimTakes(w.ledger, ORG, MAILBOX, w.trigger.generation, w.nextRun, ClaimLimit(c, cap, w.threads[t].messages));
  }

  lemma FreshClaim(c: Settings, w: World, w': World, t: ThreadId, overspent: bool, cap: Option<nat>)
    requires Accounted(c, w) && At(w, t, Checked) && w.threads[t].kind.Auto? && w' == ClaimStep(c, w, t, overspent, cap) && t in w'.threads
    ensures ThreadInv(c, w', w'.threads[t])
  {}

  lemma BuildKeepsClaims(c: Settings, w: World, t: ThreadId, ok: bool)
    requires Safe(w) && Accounted(c, w)
    ensures Accounted(c, BuildStep(c, w, t, ok))
  {
    var w' := BuildStep(c, w, t, ok);
    if t in w.threads && w.threads[t].phase.Holding? {
      assert ThreadInv(c, w, w.threads[t]);
      if ok {
        forall r | Answered(w, r) ensures Answered(w', r) { StillAnswered(w, w', r); }
        UntouchedLedger(c, w, w');
        LockedStepKeeps(c, w, w', t);
      } else {
        ReleasedKeeps(c, w, w', t);
      }
    } else if t in w.threads && w.threads[t].phase.Checked? && w.threads[t].kind.Retry? {
      if ok { RetryBuilds(c, w, t); } else { EmptyHandedKeeps(c, w, w', t); }
    }
  }

  /** A thread that gives its run up and hands its claim back. */
  lemma ReleasedKeeps(c: Settings, w: World, w': World, t: ThreadId)
    requires Safe(w) && Accounted(c, w) && t in w.threads && Cleared(w.threads[t].phase) && RunOf(w.threads[t].phase).Some?
    requires w'.threads == w.threads - {t} && w'.released == w.released && w'.nextRun == w.nextRun
    requires w'.ledger == Release(w.ledger, RunOf(w.threads[t].phase).value, c.maxAttempts)
    ensures Accounted(c, w')
  {}

  lemma RetryBuilds(c: Settings, w: World, t: ThreadId)
    requires Safe(w) && Accounted(c, w) && At(w, t, Checked) && w.threads[t].kind.Retry?
    ensures Accounted(c, BuildStep(c, w, t, true))
  {}

  lemma SwapKeepsClaims(c: Settings, w: World, t: ThreadId)
    requires Safe(w) && Accounted(c, w)
    ensures Accounted(c, SwapStep(c, w, t))
  {}

  /** The run a step gives up without a word on its messages: a retry the executor refused, or
      a run that has ended but whose completion failed. */
  function GivenUp(w: World, s: Step): Option<RunId> {
    if s.Submit? && !s.ok && s.thread in w.threads && w.threads[s.thread].phase.Submitting? && w.threads[s.thread].kind.Retry?
    then Some(w.threads[s.thread].phase.run)
    else if s.Finish? && !s.completed && CanFinish(w, s.run) then Some(s.run)
    else None
  }

  /** It had messages. */
  predicate Strands(w: World, s: Step) {
    GivenUp(w, s).Some? && exists i :: 0 <= i < |w.ledger| && HeldBy(w.ledger[i], GivenUp(w, s).value)
  }

  lemma SubmitKeepsClaims(c: Settings, w: World, t: ThreadId, ok: bool)
    requires Safe(w) && Accounted(c, w) && !Strands(w, Submit(t, ok))
    ensures Accounted(c, SubmitStep(c, w, t, ok))
  {}

  lemma FinishKeepsClaims(c: Settings, w: World, r: RunId, done: set<int>, completed: bool)
    requires Safe(w) && Accounted(c, w) && !Strands(w, Finish(r, done, completed))
    ensures Accounted(c, FinishStep(w, r, done, completed))
  {}

  lemma ReleaseOneKeeps(c: Settings, w: World, id: int)
    requires Accounted(c, w)
    ensures Accounted(c, Apply(c, w, ReleaseOne(id)))
  {}

  lemma {:induction false} RecordedRows(l: Ledger, org: int, mailbox: int, generation: int, uids: seq<int>, rejected: set<int>)
    ensures var l' := Record(l, org, mailbox, generation, uids, rejected);
      l <= l' && forall i :: |l| <= i < |l'| ==> l'[i].run == None && l'[i].attempts == 0 && (l'[i].status == Pending || l'[i].status == Filtered)
    decreases |uids|
  {
    if uids != [] {
      var k := Key(org, mailbox, generation, uids[0]);
      RecordedRows(if Has(l, k) then l else l + [Event(k, if uids[0] in rejected then Filtered else Pending, None, 0)],
                   org, mailbox, generation, uids[1..], rejected);
    }
  }

  lemma DetectKeeps(c: Settings, w: World, uids: seq<int>, rejected: set<int>)
    requires Accounted(c, w)
    ensures Accounted(c, Apply(c, w, Detect(uids, rejected)))
  {
    var w' := Apply(c, w, Detect(uids, rejected));
    RecordedRows(w.ledger, ORG, MAILBOX, w.trigger.generation, uids, rejected);
    forall r ensures Answered(w', r) == Answered(w, r) {}
    forall i | 0 <= i < |w'.ledger| ensures EventInv(c, w', w'.ledger[i]) {
      if i < |w.ledger| { assert w'.ledger[i] == w.ledger[i] && EventInv(c, w, w.ledger[i]); }
    }
    forall t | t in w'.threads ensures ThreadInv(c, w', w'.threads[t]) { assert ThreadInv(c, w, w.threads[t]); }
  }

  lemma CrashKeepsClaims(c: Settings, w: World)
    requires Accounted(c, w)
    ensures Accounted(c, CrashStep(c, w))
    ensures forall i :: 0 <= i < |w.ledger| ==> CrashStep(c, w).ledger[i].status != Claimed
  {}

  lemma StepKeepsClaims(c: Settings, w: World, s: Step)
    requires Safe(w) && Accounted(c, w) && !Strands(w, s)
    ensures Accounted(c, Apply(c, w, s))
  {
    match s
    case Guard(t, overdue) => GuardKeepsClaims(c, w, t, overdue);
    case CapCheck(t) => if At(w, t, Passed) { EmptyHandedKeeps(c, w, CapStep(c, w, t), t); }
    case Quit(t) => if QuitStep(w, t) != w { EmptyHandedKeeps(c, w, QuitStep(w, t), t); }
    case TakeClaim(t, overspent, cap) => ClaimKeepsClaims(c, w, t, overspent, cap);
    case Build(t, ok) => BuildKeepsClaims(c, w, t, ok);
    case Swap(t) => SwapKeepsClaims(c, w, t);
    case Submit(t, ok) => SubmitKeepsClaims(c, w, t, ok);
    case Finish(r, done, completed) => FinishKeepsClaims(c, w, r, done, completed);
    case Detect(uids, rejected) => DetectKeeps(c, w, uids, rejected);
    case ReleaseOne(id) => ReleaseOneKeeps(c, w, id);
    case Crash => CrashKeepsClaims(c, w);
    case _ => QuietKeeps(c, w, s);
  }

  /** No thread has the run in hand, and the registry no longer runs it. */
  ghost predicate Stranded(w: World, r: RunId) {
    r < w.nextRun && !Runs(w, r) && forall t :: t in w.threads ==> RunOf(w.threads[t].phase) != Some(r)
  }

  /** A run given up leaves its messages claimed by a run that will never finish. */
  lemma GivenUpIsStranded(c: Settings, w: World, s: Step, i: nat)
    requires Safe(w) && Accounted(c, w) && GivenUp(w, s).Some? && i < |w.ledger| && HeldBy(w.ledger[i], GivenUp(w, s).value)
    ensures var w' := Apply(c, w, s);
      Stranded(w', GivenUp(w, s).value) && |w'.ledger| == |w.ledger| && w'.ledger[i] == w.ledger[i]
  {}

  /** A step leaves every claimed message answered for exactly when it gives up no run that
      still holds one. */
  lemma ClaimsAreKeptIff(c: Settings, w: World, s: Step)
    requires Safe(w) && Accounted(c, w)
    ensures Accounted(c, Apply(c, w, s)) <==> !Strands(w, s)
  {
    if Strands(w, s) {
      var i :| 0 <= i < |w.ledger| && HeldBy(w.ledger[i], GivenUp(w, s).value);
      GivenUpIsStranded(c, w, s, i);
      assert !EventInv(c, Apply(c, w, s), Apply(c, w, s).ledger[i]);
    } else {
      StepKeepsClaims(c, w, s);
    }
  }

  predicate NothingStrands(c: Settings, w: World, steps: seq<Step>)
    decreases |steps|
  {
    steps == [] || (!Strands(w, steps[0]) && NothingStrands(c, Apply(c, w, steps[0]), steps[1..]))
  }

  lemma {:induction false} ClaimsAreAnsweredFor(c: Settings, w: World, steps: seq<Step>)
    requires Safe(w) && Accounted(c, w) && NothingStrands(c, w, steps)
    ensures Accounted(c, Run(c, w, steps))
    decreases |steps|
  {
    if steps != [] {
      StepKeepsSafe(c, w, steps[0]);
      StepKeepsClaims(c, w, steps[0]);
      ClaimsAreAnsweredFor(c, Apply(c, w, steps[0]), steps[1..]);
    }
  }

  // ------------------------------------------------------------------ until a restart

  lemma StrandedStays(c: Settings, w: World, s: Step, r: RunId, i: nat)
    requires Stranded(w, r) && i < |w.ledger| && HeldBy(w.ledger[i], r) && !s.Crash?
    ensures var w' := Apply(c, w, s); Stranded(w', r) && i < |w'.ledger| && w'.ledger[i] == w.ledger[i]
  {
    if s.Detect? {
      RecordedRows(w.ledger, ORG, MAILBOX, w.trigger.generation, s.uids, s.rejected);
    } else if s.Guard? {
      StrandedPastGuard(c, w, s.thread, s.overdue, r, i);
    } else if s.Build? || s.Swap? || s.Submit? {
      StrandedPastRun(c, w, s, r, i);
    }
  }

  lemma StrandedPastGuard(c: Settings, w: World, t: ThreadId, overdue: bool, r: RunId, i: nat)
    requires Stranded(w, r) && i < |w.ledger| && HeldBy(w.ledger[i], r)
    ensures var w' := GuardStep(c, w, t, overdue); Stranded(w', r) && i < |w'.ledger| && w'.ledger[i] == w.ledger[i]
  {}

  lemma StrandedPastRun(c: Settings, w: World, s: Step, r: RunId, i: nat)
    requires Stranded(w, r) && i < |w.ledger| && HeldBy(w.ledger[i], r) && (s.Build? || s.Swap? || s.Submit?)
    ensures var w' := Apply(c, w, s); Stranded(w', r) && i < |w'.ledger| && w'.ledger[i] == w.ledger[i]
  {}

  /** Over any run without a restart such a message stays as it is; the restart frees it. */
  lemma {:induction false} StrandedUntilRestart(c: Settings, w: World, steps: seq<Step>, r: RunId, i: nat)
    requires Stranded(w, r) && i < |w.ledger| && HeldBy(w.ledger[i], r) && forall s :: s in steps ==> !s.Crash?
    ensures var w' := Run(c, w, steps);
      && Stranded(w', r) && i < |w'.ledger| && w'.ledger[i] == w.ledger[i]
      && CrashStep(c, w').ledger[i] == Released(w.ledger[i], r, c.maxAttempts) && CrashStep(c, w').ledger[i].status in {Pending, Failed}
    decreases |steps|
  {
    if steps != [] {
      StrandedStays(c, w, steps[0], r, i);
      StrandedUntilRestart(c, Apply(c, w, steps[0]), steps[1..], r, i);
    }
  }

  // ------------------------------------------------------------------ a run that strands

  const SETTINGS: Settings := Settings(10, 20, 3)
  const AGAIN: Kind := Retry(7, {5}, {})
  const MESSAGE: Key := Key(ORG, MAILBOX, 1, 5)

  /** One org's world with one message, on the day its one thread retries. */
  function Retrying(e: Event, runs: nat, lastRun: Option<RunId>, running: map<RunId, bool>, rows: map<RunId, bool>, lock: Option<ThreadId>,
                    threads: map<ThreadId, Thread>, nextRun: RunId, dispatched: set<RunId>): World {
    World(Trigger(true, 1, runs, 0, 1, lastRun), [e], running, rows, lock, threads, 1, nextRun, dispatched, {}, runs, 0, 0)
  }

  function Hand(p: Phase): map<ThreadId, Thread> { map[1 := Thread(AGAIN, 1, false, 0, 0, p)] }

  const FAILED: Event := Event(MESSAGE, Failed, Some(7), 1)
  const TAKEN: Event := Event(MESSAGE, Claimed, Some(100), 0)
  const BEFORE: World := Retrying(FAILED, 0, None, map[], map[], None, map[], 100, {})

  lemma {:induction false} RunOn(c: Settings, w: World, a: seq<Step>, b: seq<Step>)
    ensures Run(c, w, a + b) == Run(c, Run(c, w, a), b)
    decreases |a|
  {
    if a == [] {
      assert a + b == b;
    } else {
      RunOn(c, Apply(c, w, a[0]), a[1..], b);
      assert (a + b)[1..] == a[1..] + b;
    }
  }

  lemma One(w: World, s: Step, w': World, rest: seq<Step>)
    requires Apply(SETTINGS, w, s) == w'
    ensures Run(SETTINGS, w, [s] + rest) == Run(SETTINGS, w', rest)
  {
    RunOn(SETTINGS, w, [s], rest);
    assert [s][1..] == [];
    assert Run(SETTINGS, w, [s]) == w';
  }

  const READY: World := Retrying(FAILED, 0, None, map[100 := true], map[], Some(1), Hand(Built(100, 0, None)), 101, {})
  const REFUSED: World := Retrying(TAKEN, 1, Some(100), map[100 := false], map[100 := false], None, map[], 101, {100})

  lemma RetryReady(rest: seq<Step>)
    ensures Run(SETTINGS, BEFORE, [Begin(1, AGAIN)] + ([Acquire(1)] + ([Guard(1, false)] + ([CapCheck(1)] + ([Build(1, true)] + rest)))))
         == Run(SETTINGS, READY, rest)
  {
    var w1 := Retrying(FAILED, 0, None, map[], map[], None, Hand(Waiting), 100, {});
    var w2 := w1.(lock := Some(1), threads := Hand(Guarding));
    var w3 := w2.(threads := Hand(Passed));
    var w4 := w2.(threads := Hand(Phase.Checked));
    var r4 := [Build(1, true)] + rest;
    var r3 := [CapCheck(1)] + r4;
    var r2 := [Guard(1, false)] + r3;
    One(w4, Build(1, true), READY, rest);
    One(w3, CapCheck(1), w4, r4);
    One(w2, Guard(1, false), w3, r3);
    One(w1, Acquire(1), w2, r2);
    One(BEFORE, Begin(1, AGAIN), w1, [Acquire(1)] + r2);
  }

  lemma RetryRefused()
    ensures Run(SETTINGS, READY, [Swap(1)] + ([Submit(1, false)] + [])) == REFUSED
  {
    var w1 := Retrying(TAKEN, 1, Some(100), map[100 := true], map[100 := true], Some(1), Hand(Submitting(100)), 101, {100});
    assert ResolveRetry([FAILED], 7, 100, {5}, {}) == [TAKEN];
    One(READY, Swap(1), w1, [Submit(1, false)] + []);
    One(w1, Submit(1, false), REFUSED, []);
  }

  /** A failed run's message taken over by a retry whose submission is refused. */
  lemma RefusedRetryStrands()
    ensures Fresh(BEFORE) && Safe(BEFORE) && Accounted(SETTINGS, BEFORE)
    ensures exists steps :: var w := Run(SETTINGS, BEFORE, steps); Stranded(w, 100) && w.ledger == [TAKEN] && HeldBy(TAKEN, 100)
  {
    var last := [Swap(1)] + ([Submit(1, false)] + []);
    RetryReady(last);
    RetryRefused();
    var steps := [Begin(1, AGAIN)] + ([Acquire(1)] + ([Guard(1, false)] + ([CapCheck(1)] + ([Build(1, true)] + last))));
    assert Run(SETTINGS, BEFORE, steps) == REFUSED;
  }
}
