/** The daily counters: what they count, what they bound, and the one reset that can lose a
    dispatch. */
module DispatchBudget {
  import opened Basics
  import opened InboxLedger
  import opened Dispatch
  import opened DispatchSafety

  // ------------------------------------------------------------------ conservation

  /** The counter is the dispatches since `runsDate` began, less those a later reset wiped, plus
      those a reset that was left out carried over from the date before. */
  predicate Counted(w: World) { w.trigger.runsToday + w.wiped == w.count + w.carried }

  lemma FlushKeepsCounted(w: World, t: ThreadId)
    requires Counted(w) && t in w.threads
    ensures Counted(Flushed(w, t))
  {}

  lemma StepKeepsCounted(c: Settings, w: World, s: Step)
    requires Counted(w)
    ensures Counted(Apply(c, w, s))
  {
    match s
    case Guard(t, overdue) => if t in w.threads { FlushKeepsCounted(w, t); }
    case CapCheck(t) => if t in w.threads { FlushKeepsCounted(w, t); }
    case Quit(t) => if t in w.threads { FlushKeepsCounted(w, t); }
    case Swap(t) => if t in w.threads { FlushKeepsCounted(w, t); }
    case _ => OtherStepsCount(c, w, s);
  }

  lemma OtherStepsCount(c: Settings, w: World, s: Step)
    requires Counted(w) && !s.Guard? && !s.CapCheck? && !s.Quit? && !s.Swap?
    ensures Counted(Apply(c, w, s))
  {}

  lemma {:induction false} CountedThroughout(c: Settings, w: World, steps: seq<Step>)
    requires Counted(w)
    ensures Counted(Run(c, w, steps))
    ensures Run(c, w, steps).trigger.runsToday == Run(c, w, steps).count <==> Run(c, w, steps).wiped == Run(c, w, steps).carried
    decreases |steps|
  {
    if steps != [] {
      StepKeepsCounted(c, w, steps[0]);
      CountedThroughout(c, Apply(c, w, steps[0]), steps[1..]);
    }
  }

  /** A step that commits the rollover its thread noted when it loaded the trigger: a guard that
      releases or stands back, a cycle that goes on, an end that commits, a dispatch. A retry
      whose build fails or whose trigger is off has its transaction rolled back. */
  predicate Flushes(c: Settings, w: World, s: Step) {
    match s
    case Guard(t, _) => At(w, t, Guarding) && w.threads[t].dirty && w.trigger.lastRun.Some? && Runs(w, w.trigger.lastRun.value)
    case CapCheck(t) => At(w, t, Passed) && w.threads[t].dirty && (w.threads[t].kind.Auto? || FreshRunsToday(w, t) >= c.dailyCap)
    case Quit(t) => t in w.threads && w.threads[t].dirty && w.threads[t].phase == if w.threads[t].kind.Auto? then Passed else Checked
    case Swap(t) => t in w.threads && w.threads[t].dirty && w.threads[t].phase.Built? && w.trigger.enabled
    case _ => false
  }

  /** A count is lost exactly when a thread that loaded a count commits its rollover after another
      thread has already rolled the day over and dispatched. */
  lemma WipesIff(c: Settings, w: World, s: Step)
    ensures var w' := Apply(c, w, s);
      w'.trigger.runsDate == w.trigger.runsDate && w'.wiped > w.wiped <==>
        Flushes(c, w, s) && w.threads[s.thread].today == w.trigger.runsDate && w.threads[s.thread].runs != 0 && w.trigger.runsToday > 0
  {}

  /** And the day before is counted twice exactly when a thread that loaded no count commits a
      rollover of a row that has come to have one. */
  lemma CarriesIff(c: Settings, w: World, s: Step)
    ensures var w' := Apply(c, w, s);
      w'.trigger.runsDate != w.trigger.runsDate && w'.carried > 0 <==>
        Flushes(c, w, s) && w.threads[s.thread].today != w.trigger.runsDate && w.threads[s.thread].runs == 0 && w.trigger.runsToday > 0
  {}

  // ------------------------------------------------------------------ the run cap

  /** The day has been rolled over in the row and in every thread. */
  predicate RolledOver(w: World) {
    w.today == w.trigger.runsDate && forall t :: t in w.threads ==> w.threads[t].today == w.trigger.runsDate && !w.threads[t].dirty
  }

  predicate UnderCap(p: Phase) { p.Checked? || p.Holding? || p.Built? }

  predicate WithinCap(c: Settings, w: World) {
    && w.trigger.runsToday <= c.dailyCap
    && forall t :: t in w.threads && UnderCap(w.threads[t].phase) ==> w.trigger.runsToday < c.dailyCap
  }

  /** From a rolled-over day the counter is exact and the cap holds, up to the next midnight. */
  lemma StepKeepsCap(c: Settings, w: World, s: Step)
    requires Safe(w) && RolledOver(w) && WithinCap(c, w) && !s.NewDay?
    ensures var w' := Apply(c, w, s);
      && RolledOver(w') && WithinCap(c, w') && w'.wiped == w.wiped && w'.carried == w.carried
      && w'.count - w.count == w'.trigger.runsToday - w.trigger.runsToday
  {
    if s.Swap? {
      SwapKeepsCap(c, w, s.thread);
    } else if s.Guard? {
      if At(w, s.thread, Guarding) { assert Flushed(w, s.thread) == w; }
    } else {
      OtherStepsKeepCap(c, w, s);
    }
  }

  lemma SwapKeepsCap(c: Settings, w: World, t: ThreadId)
    requires Safe(w) && RolledOver(w) && WithinCap(c, w)
    ensures var w' := SwapStep(c, w, t);
      && RolledOver(w') && WithinCap(c, w') && w'.wiped == w.wiped && w'.carried == w.carried
      && w'.count - w.count == w'.trigger.runsToday - w.trigger.runsToday
  {}

  lemma OtherStepsKeepCap(c: Settings, w: World, s: Step)
    requires RolledOver(w) && WithinCap(c, w) && !s.NewDay? && !s.Swap? && !s.Guard?
    ensures var w' := Apply(c, w, s);
      RolledOver(w') && WithinCap(c, w') && w'.wiped == w.wiped && w'.carried == w.carried && w'.count == w.count && w'.trigger.runsToday == w.trigger.runsToday
  {}

  predicate OneDay(steps: seq<Step>) { forall i :: 0 <= i < |steps| ==> !steps[i].NewDay? }

  lemma {:induction false} CapHoldsAllDay(c: Settings, w: World, steps: seq<Step>)
    requires Safe(w) && RolledOver(w) && WithinCap(c, w) && OneDay(steps)
    ensures var w' := Run(c, w, steps);
      w'.trigger.runsToday <= c.dailyCap && w'.count - w.count == w'.trigger.runsToday - w.trigger.runsToday
    decreases |steps|
  {
    if steps != [] {
      StepKeepsSafe(c, w, steps[0]);
      StepKeepsCap(c, w, steps[0]);
      CapHoldsAllDay(c, Apply(c, w, steps[0]), steps[1..]);
    }
  }

  /** A thread whose day is not the row's, and is not rolling it over, passes the check whatever
      the count: between that check and its swap the cap can be exceeded. */
  lemma CapCheckPassesIff(c: Settings, w: World, t: ThreadId)
    requires At(w, t, Passed) && c.dailyCap > 0
    ensures At(CapStep(c, w, t), t, Checked) <==>
      if w.threads[t].dirty then w.threads[t].runs != 0 || w.trigger.runsToday < c.dailyCap
      else w.threads[t].today != w.trigger.runsDate || w.trigger.runsToday < c.dailyCap
  {}

  // ------------------------------------------------------------------ the message cap

  /** The process's one poller dispatches automatically, one cycle of an org after another. */
  predicate OnePoller(w: World) {
    forall a, b :: a in w.threads && b in w.threads && w.threads[a].kind.Auto? && w.threads[b].kind.Auto? ==> a == b
  }

  predicate Polls(w: World, s: Step) {
    s.Begin? && s.kind.Auto? ==> forall t :: t in w.threads ==> !w.threads[t].kind.Auto?
  }

  predicate RunPolls(c: Settings, w: World, steps: seq<Step>)
    decreases |steps|
  {
    steps == [] || (Polls(w, steps[0]) && RunPolls(c, Apply(c, w, steps[0]), steps[1..]))
  }

  /** The row has not gone above what a cycle loaded, and what the cycle is about to charge fits
      under the cap it read. */
  predicate MessagesFit(w: World) {
    forall t :: t in w.threads ==> Fitting(w.trigger, w.threads[t])
  }

  predicate Fitting(g: Trigger, k: Thread) {
    && (k.kind.Auto? && !k.phase.Submitting? ==> g.messagesToday <= k.messages)
    && ((k.phase.Holding? || k.phase.Built?) && k.phase.cap.Some? ==> g.messagesToday + k.phase.messages <= k.phase.cap.value)
    && (k.phase.Holding? ==> k.kind.Auto?)
    && (k.phase.Built? && k.kind.Retry? ==> k.phase.messages == 0)
    && (k.kind.Auto? && (k.phase.Checked? || k.phase.Holding? || k.phase.Built?) ==> !k.dirty)
  }

  lemma StepKeepsFit(c: Settings, w: World, s: Step)
    requires Safe(w) && MessagesFit(w) && OnePoller(w) && Polls(w, s)
    ensures MessagesFit(Apply(c, w, s)) && OnePoller(Apply(c, w, s))
  {
    match s
    case Swap(t) => SwapKeepsFit(c, w, t);
    case Guard(t, overdue) => GuardKeepsFit(c, w, t, overdue);
    case CapCheck(t) => CapKeepsFit(c, w, t);
    case Quit(t) => QuitKeepsFit(w, t);
    case _ => OtherStepsKeepFit(c, w, s);
  }

  /** A rollover written only lowers the message counter. */
  lemma FlushKeepsFit(w: World, t: ThreadId)
    requires MessagesFit(w) && t in w.threads
    ensures Flushed(w, t).trigger.messagesToday <= w.trigger.messagesToday
    ensures w.threads[t].kind.Auto? && !w.threads[t].phase.Submitting? ==> Flushed(w, t).trigger.messagesToday <= Flushed(w, t).threads[t].messages
    ensures Flushed(w, t).threads == w.threads[t := Flushed(w, t).threads[t]]
  {
    assert Fitting(w.trigger, w.threads[t]);
  }

  lemma SwapKeepsFit(c: Settings, w: World, t: ThreadId)
    requires Safe(w) && MessagesFit(w) && OnePoller(w)
    ensures MessagesFit(SwapStep(c, w, t)) && OnePoller(SwapStep(c, w, t))
  {
    if t in w.threads && w.threads[t].phase.Built? {
      OthersWait(w, t);
      FlushKeepsFit(w, t);
    }
  }

  lemma GuardKeepsFit(c: Settings, w: World, t: ThreadId, overdue: bool)
    requires Safe(w) && MessagesFit(w) && OnePoller(w)
    ensures MessagesFit(GuardStep(c, w, t, overdue)) && OnePoller(GuardStep(c, w, t, overdue))
  {
    if At(w, t, Guarding) {
      OthersWait(w, t);
      FlushKeepsFit(w, t);
    }
  }

  lemma CapKeepsFit(c: Settings, w: World, t: ThreadId)
    requires Safe(w) && MessagesFit(w) && OnePoller(w)
    ensures MessagesFit(CapStep(c, w, t)) && OnePoller(CapStep(c, w, t))
  {
    if At(w, t, Passed) {
      OthersWait(w, t);
      FlushKeepsFit(w, t);
    }
  }

  lemma QuitKeepsFit(w: World, t: ThreadId)
    requires Safe(w) && MessagesFit(w) && OnePoller(w)
    ensures MessagesFit(QuitStep(w, t)) && OnePoller(QuitStep(w, t))
  {
    if QuitStep(w, t) != w {
      OthersWait(w, t);
      FlushKeepsFit(w, t);
    }
  }

  lemma OthersWait(w: World, t: ThreadId)
    requires Safe(w) && t in w.threads && HoldsLock(w.threads[t].phase)
    ensures forall x :: x in w.threads && x != t ==> !HoldsLock(w.threads[x].phase)
  {}

  lemma OtherStepsKeepFit(c: Settings, w: World, s: Step)
    requires MessagesFit(w) && OnePoller(w) && Polls(w, s) && !s.Swap? && !s.Guard? && !s.CapCheck? && !s.Quit?
    ensures MessagesFit(Apply(c, w, s)) && OnePoller(Apply(c, w, s))
  {}

  lemma {:induction false} FitThroughout(c: Settings, w: World, steps: seq<Step>)
    requires Safe(w) && MessagesFit(w) && OnePoller(w) && RunPolls(c, w, steps)
    ensures Safe(Run(c, w, steps)) && MessagesFit(Run(c, w, steps))
    decreases |steps|
  {
    if steps != [] {
      StepKeepsSafe(c, w, steps[0]);
      StepKeepsFit(c, w, steps[0]);
      FitThroughout(c, Apply(c, w, steps[0]), steps[1..]);
    }
  }

  /** With one poller each automatic dispatch leaves the message counter at or below the cap in
      force when its claim was cut, though the claim was cut by the counter as loaded; and it is
      charged its claim exactly. */
  lemma DispatchStaysWithinMessageCap(c: Settings, w: World, steps: seq<Step>, t: ThreadId)
    requires Fresh(w) && RunPolls(c, w, steps)
    requires var v := Run(c, w, steps); t in v.threads && v.threads[t].kind.Auto? && v.threads[t].phase.Built? && v.trigger.enabled
    ensures var v := Run(c, w, steps); var v' := SwapStep(c, v, t); var p := v.threads[t].phase;
      && v'.trigger.messagesToday == v.trigger.messagesToday + p.messages && v'.trigger.runsToday == v.trigger.runsToday + 1
      && (p.cap.Some? ==> v'.trigger.messagesToday <= p.cap.value)
  {
    FitThroughout(c, w, steps);
  }

  // ------------------------------------------------------------------ the lost count

  const SETTINGS: Settings := Settings(10, 20, 3)
  const RETRYING: Kind := Retry(7, {}, {})

  function Morning(runsToday: nat, runsDate: int, lastRun: Option<RunId>, running: map<RunId, bool>, rows: map<RunId, bool>, lock: Option<ThreadId>,
                   threads: map<ThreadId, Thread>, nextRun: RunId, dispatched: set<RunId>, count: nat): World {
    World(Trigger(true, 1, runsToday, 0, runsDate, lastRun), [], running, rows, lock, threads, 1, nextRun, dispatched, {}, count, 0, 0)
  }

  /** Two retries load the trigger just after midnight. The first rolls the day over, dispatches
      and finishes; the second then finds nothing left to do, commits its own rollover, and the
      first's dispatch is no longer counted. */
  lemma RolloverCanLoseADispatch()
    ensures var w0 := Morning(5, 0, None, map[], map[], None, map[], 100, {}, 5);
      var w1 := BeginStep(SETTINGS, BeginStep(SETTINGS, w0, 1, RETRYING), 2, RETRYING);
      var w2 := BuildStep(SETTINGS, CapStep(SETTINGS, GuardStep(SETTINGS, AcquireStep(w1, 1), 1, false), 1), 1, true);
      var w3 := FinishStep(SubmitStep(SETTINGS, SwapStep(SETTINGS, w2, 1), 1, true), 100, {}, true);
      var w4 := QuitStep(CapStep(SETTINGS, GuardStep(SETTINGS, AcquireStep(w3, 2), 2, false), 2), 2);
      Fresh(w0) && Counted(w0) && w3.trigger.runsToday == 1 && w4.trigger.runsToday == 0 && w4.count == 1 && w4.wiped == 1
  {
    var a := Thread(RETRYING, 1, true, 5, 0, Waiting);
    var w0 := Morning(5, 0, None, map[], map[], None, map[], 100, {}, 5);
    var w1 := Morning(5, 0, None, map[], map[], None, map[1 := a, 2 := a], 100, {}, 5);
    assert BeginStep(SETTINGS, BeginStep(SETTINGS, w0, 1, RETRYING), 2, RETRYING) == w1;
    FirstRetry(w1, a);
  }

  /** The second retry's end, after the first's. */
  predicate Wiped(w3: World) {
    var w4 := QuitStep(CapStep(SETTINGS, GuardStep(SETTINGS, AcquireStep(w3, 2), 2, false), 2), 2);
    w3.trigger.runsToday == 1 && w4.trigger.runsToday == 0 && w4.count == 1 && w4.wiped == 1
  }

  lemma FirstRetry(w1: World, a: Thread)
    requires a == Thread(RETRYING, 1, true, 5, 0, Waiting) && w1 == Morning(5, 0, None, map[], map[], None, map[1 := a, 2 := a], 100, {}, 5)
    ensures var w2 := BuildStep(SETTINGS, CapStep(SETTINGS, GuardStep(SETTINGS, AcquireStep(w1, 1), 1, false), 1), 1, true);
      Wiped(FinishStep(SubmitStep(SETTINGS, SwapStep(SETTINGS, w2, 1), 1, true), 100, {}, true))
  {
    var g := Morning(5, 0, None, map[], map[], Some(1), map[1 := a.(phase := Guarding), 2 := a], 100, {}, 5);
    assert AcquireStep(w1, 1) == g;
    var p := g.(threads := map[1 := a.(phase := Passed), 2 := a]);
    assert GuardStep(SETTINGS, g, 1, false) == p;
    var q := g.(threads := map[1 := a.(phase := Checked), 2 := a]);
    assert CapStep(SETTINGS, p, 1) == q;
    var u := Morning(5, 0, None, map[100 := true], map[], Some(1), map[1 := a.(phase := Built(100, 0, None)), 2 := a], 101, {}, 5);
    assert BuildStep(SETTINGS, q, 1, true) == u;
    Dispatches(u, a);
  }

  lemma Dispatches(u: World, a: Thread)
    requires a == Thread(RETRYING, 1, true, 5, 0, Waiting)
    requires u == Morning(5, 0, None, map[100 := true], map[], Some(1), map[1 := a.(phase := Built(100, 0, None)), 2 := a], 101, {}, 5)
    ensures Wiped(FinishStep(SubmitStep(SETTINGS, SwapStep(SETTINGS, u, 1), 1, true), 100, {}, true))
  {
    var b := Thread(RETRYING, 1, false, 0, 0, Submitting(100));
    var s := Morning(1, 1, Some(100), map[100 := true], map[100 := true], Some(1), map[1 := b, 2 := a], 101, {100}, 1);
    assert SwapStep(SETTINGS, u, 1) == s;
    var e := Morning(1, 1, Some(100), map[100 := true], map[100 := true], None, map[2 := a], 101, {100}, 1);
    assert SubmitStep(SETTINGS, s, 1, true) == e;
    FinishesThenWipes(e, a);
  }

  lemma FinishesThenWipes(e: World, a: Thread)
    requires a == Thread(RETRYING, 1, true, 5, 0, Waiting)
    requires e == Morning(1, 1, Some(100), map[100 := true], map[100 := true], None, map[2 := a], 101, {100}, 1)
    ensures Wiped(FinishStep(e, 100, {}, true))
  {
    var f := Morning(1, 1, Some(100), map[100 := false], map[100 := false], Some(2), map[2 := a.(phase := Guarding)], 101, {100}, 1);
    assert AcquireStep(FinishStep(e, 100, {}, true), 2) == f;
    var p := f.(threads := map[2 := a.(phase := Passed)]);
    assert GuardStep(SETTINGS, f, 2, false) == p;
    assert CapStep(SETTINGS, p, 2) == f.(threads := map[2 := a.(phase := Checked)]);
  }
}
