/** At most one live run per org, whatever interleaves. */
module DispatchSafety {
  import opened Basics
  import opened InboxLedger
  import opened Dispatch

  predicate HoldsLock(p: Phase) { !p.Waiting? }

  /** Past the overlap guard and not yet dispatched. */
  predicate Cleared(p: Phase) { p.Passed? || p.Checked? || p.Holding? || p.Built? }

  /** Dispatched, still executing, and not given up on by the watchdog. */
  predicate Live(w: World, r: RunId) { r in w.dispatched && Runs(w, r) && r !in w.released }

  predicate LockInv(w: World) {
    && (w.lock.Some? ==> w.lock.value in w.threads && HoldsLock(w.threads[w.lock.value].phase))
    && (forall t :: t in w.threads && HoldsLock(w.threads[t].phase) ==> w.lock == Some(t))
  }

  /** Run ids are used once. */
  predicate IdInv(w: World) {
    && (forall r :: r in w.running ==> r < w.nextRun)
    && (forall r :: r in w.dispatched ==> r < w.nextRun)
    && (forall t :: t in w.threads && (w.threads[t].phase.Holding? || w.threads[t].phase.Built?) ==>
          w.threads[t].phase.run < w.nextRun && w.threads[t].phase.run !in w.dispatched)
  }

  /** Only the run the trigger names can be live, and none is once a thread is past the guard. */
  ghost predicate LiveInv(w: World) {
    && (forall r :: Live(w, r) ==> w.trigger.lastRun == Some(r))
    && (forall t, r :: t in w.threads && Cleared(w.threads[t].phase) ==> !Live(w, r))
  }

  ghost predicate Safe(w: World) { LockInv(w) && IdInv(w) && LiveInv(w) }

  /** Steps that change no thread, run or lock. */
  lemma SameRunsKeep(w: World, w': World)
    requires Safe(w) && w'.threads == w.threads && w'.lock == w.lock && w'.running == w.running && w'.dispatched == w.dispatched
    requires w'.released == w.released && w'.nextRun == w.nextRun && w'.trigger.lastRun == w.trigger.lastRun
    ensures Safe(w')
  {
    assert forall r :: Live(w', r) ==> Live(w, r);
  }

  /** Steps after which nothing more is live and no thread has come further. */
  ghost predicate NoMore(w: World, w': World) {
    && (forall r :: Live(w', r) ==> Live(w, r)) && w'.trigger.lastRun == w.trigger.lastRun
    && w'.dispatched == w.dispatched && w'.nextRun >= w.nextRun
    && (forall r :: r in w'.running ==> r in w.running || (w.nextRun <= r < w'.nextRun))
  }

  lemma BeginKeeps(c: Settings, w: World, t: ThreadId, kind: Kind)
    requires Safe(w)
    ensures Safe(BeginStep(c, w, t, kind))
  {
    assert NoMore(w, BeginStep(c, w, t, kind));
  }

  lemma AcquireKeeps(w: World, t: ThreadId)
    requires Safe(w)
    ensures Safe(AcquireStep(w, t))
  {}

  lemma EndKeeps(w: World, w': World, t: ThreadId)
    requires Safe(w) && t in w.threads && HoldsLock(w.threads[t].phase) && NoMore(w, w')
    requires w'.threads == w.threads - {t} && w'.lock == None
    ensures Safe(w')
  {}

  lemma GuardKeeps(c: Settings, w: World, t: ThreadId, overdue: bool)
    requires Safe(w)
    ensures Safe(GuardStep(c, w, t, overdue))
  {}

  /** A thread moving on between the guard and its swap. */
  lemma MoveKeeps(w: World, w': World, t: ThreadId)
    requires Safe(w) && t in w.threads && Cleared(w.threads[t].phase) && t in w'.threads && Cleared(w'.threads[t].phase)
    requires w'.threads == w.threads[t := w'.threads[t]] && w'.lock == w.lock && NoMore(w, w')
    requires w'.threads[t].phase.Holding? || w'.threads[t].phase.Built? ==> w'.threads[t].phase.run < w'.nextRun && w'.threads[t].phase.run !in w'.dispatched
    ensures Safe(w')
  {}

  lemma SwapKeeps(c: Settings, w: World, t: ThreadId)
    requires Safe(w)
    ensures Safe(SwapStep(c, w, t))
  {
    if t in w.threads && w.threads[t].phase.Built? {
      var w' := SwapStep(c, w, t);
      forall r ensures !Live(w, r) {}
      if !w.trigger.enabled {
        EndKeeps(w, w', t);
      } else {
        forall r | Live(w', r) ensures r == w.threads[t].phase.run { assert !Live(w, r); }
      }
    }
  }

  lemma ClaimKeeps(c: Settings, w: World, t: ThreadId, overspent: bool, cap: Option<nat>)
    requires Safe(w)
    ensures Safe(ClaimStep(c, w, t, overspent, cap))
  {
    var w' := ClaimStep(c, w, t, overspent, cap);
    if At(w, t, Checked) && w.threads[t].kind.Auto? {
      forall r | Live(w', r) ensures Live(w, r) {}
      if t in w'.threads { MoveKeeps(w, w', t); } else { EndKeeps(w, w', t); }
    }
  }

  lemma BuildKeeps(c: Settings, w: World, t: ThreadId, ok: bool)
    requires Safe(w)
    ensures Safe(BuildStep(c, w, t, ok))
  {
    var w' := BuildStep(c, w, t, ok);
    if t in w.threads && (w.threads[t].phase.Holding? || (w.threads[t].phase.Checked? && w.threads[t].kind.Retry?)) {
      forall r | Live(w', r) ensures Live(w, r) {}
      if ok { MoveKeeps(w, w', t); } else { EndKeeps(w, w', t); }
    }
  }

  lemma SubmitKeeps(c: Settings, w: World, t: ThreadId, ok: bool)
    requires Safe(w)
    ensures Safe(SubmitStep(c, w, t, ok))
  {}

  lemma StepKeepsSafe(c: Settings, w: World, s: Step)
    requires Safe(w)
    ensures Safe(Apply(c, w, s))
  {
    match s
    case Begin(t, kind) => BeginKeeps(c, w, t, kind);
    case Acquire(t) => AcquireKeeps(w, t);
    case Guard(t, overdue) => GuardKeeps(c, w, t, overdue);
    case CapCheck(t) =>
      if At(w, t, Passed) {
        if t in CapStep(c, w, t).threads { MoveKeeps(w, CapStep(c, w, t), t); } else { EndKeeps(w, CapStep(c, w, t), t); }
      }
    case Quit(t) => if QuitStep(w, t) != w { EndKeeps(w, QuitStep(w, t), t); }
    case TakeClaim(t, overspent, cap) => ClaimKeeps(c, w, t, overspent, cap);
    case Build(t, ok) => BuildKeeps(c, w, t, ok);
    case Swap(t) => SwapKeeps(c, w, t);
    case Submit(t, ok) => SubmitKeeps(c, w, t, ok);
    case Finish(r, done, completed) => FinishKeeps(w, r, done, completed);
    case EvictRun(r) => EvictKeeps(c, w, r);
    case Crash => assert forall r :: !Live(CrashStep(c, w), r);
    case _ => SameRunsKeep(w, Apply(c, w, s));
  }

  lemma FinishKeeps(w: World, r: RunId, done: set<int>, completed: bool)
    requires Safe(w)
    ensures Safe(FinishStep(w, r, done, completed))
  {
    assert NoMore(w, FinishStep(w, r, done, completed));
  }

  lemma EvictKeeps(c: Settings, w: World, r: RunId)
    requires Safe(w)
    ensures Safe(Apply(c, w, EvictRun(r)))
  {
    assert NoMore(w, Apply(c, w, EvictRun(r)));
  }

  function Run(c: Settings, w: World, steps: seq<Step>): World
    decreases |steps|
  {
    if steps == [] then w else Run(c, Apply(c, w, steps[0]), steps[1..])
  }

  lemma {:induction false} SafeThroughout(c: Settings, w: World, steps: seq<Step>)
    requires Safe(w)
    ensures Safe(Run(c, w, steps))
    decreases |steps|
  {
    if steps != [] {
      StepKeepsSafe(c, w, steps[0]);
      SafeThroughout(c, Apply(c, w, steps[0]), steps[1..]);
    }
  }

  /** A process that has dispatched nothing yet. */
  predicate Fresh(w: World) {
    w.running == map[] && w.threads == map[] && w.lock == None && w.dispatched == {} && w.released == {}
  }

  /** In every interleaving of poll cycles, manual retries, workers, watchdogs and crashes, at
      most one dispatched run is still running and not yet released. */
  lemma MutualExclusion(c: Settings, w: World, steps: seq<Step>, a: RunId, b: RunId)
    requires Fresh(w) && Live(Run(c, w, steps), a) && Live(Run(c, w, steps), b)
    ensures a == b
  {
    SafeThroughout(c, w, steps);
  }

  /** A released run can still be executing beside its successor: the registry says so of both,
      and only the watchdog's mark tells them apart. */
  lemma ReleasedRunMayStillExecute(c: Settings, w: World, t: ThreadId, r: RunId)
    requires At(w, t, Guarding) && !w.threads[t].dirty && w.trigger.lastRun == Some(r) && Runs(w, r)
    ensures var w' := GuardStep(c, w, t, true); Runs(w', r) && !Live(w', r) && At(w', t, Passed)
  {}
}
