/** Dispatching runs for one org (`ui/backend/email_trigger.py`): poll cycles and manual
    retries under the org's lock, the watchdog, the daily counters and the compare-and-swap.
    A step is what happens between two commits; a crash may come after any. */
module Dispatch {
  import opened Basics
  import opened InboxLedger

  type ThreadId = int

  const ORG: int := 1
  const MAILBOX: int := 1

  /** The process's settings. */
  datatype Settings = Settings(dailyCap: nat, batchSize: nat, maxAttempts: nat)

  /** The org's `EmailTrigger` row. */
  datatype Trigger = Trigger(enabled: bool, generation: int, runsToday: nat, messagesToday: nat, runsDate: int, lastRun: Option<RunId>)

  datatype Kind = Auto | Retry(from: RunId, retry: set<int>, done: set<int>)

  /** Where a dispatching thread is. From `Guarding` on it holds the org's lock. `messages` and
      `cap` are the claim's size and the message cap it was cut to. */
  datatype Phase =
    | Waiting
    | Guarding
    | Passed
    | Checked
    | Holding(run: RunId, messages: nat, cap: Option<nat>)
    | Built(run: RunId, messages: nat, cap: Option<nat>)
    | Submitting(run: RunId)

  /** `today` as the thread computed it; `dirty` while it has a day rollover not yet committed;
      and the two counters as the row it loaded has them, which no commit refreshes. */
  datatype Thread = Thread(kind: Kind, today: int, dirty: bool, runs: nat, messages: nat, phase: Phase)

  /** `running` is the in-process registry and `rows` the durable run rows, both run id to
      "still running". The last five are for the record: what was dispatched, what the watchdog
      released, and how many dispatches `runsDate` has seen against how many a reset wiped and
      how many counted on an earlier date were carried into it. */
  datatype World = World(
    trigger: Trigger, ledger: Ledger, running: map<RunId, bool>, rows: map<RunId, bool>,
    lock: Option<ThreadId>, threads: map<ThreadId, Thread>, today: int, nextRun: RunId,
    dispatched: set<RunId>, released: set<RunId>, count: nat, wiped: nat, carried: nat)

  datatype Step =
    | Begin(thread: ThreadId, kind: Kind)
    | Acquire(thread: ThreadId)
    | Guard(thread: ThreadId, overdue: bool)
    | CapCheck(thread: ThreadId)
    | TakeClaim(thread: ThreadId, overspent: bool, messageCap: Option<nat>)
    | Quit(thread: ThreadId)
    | Build(thread: ThreadId, ok: bool)
    | Swap(thread: ThreadId)
    | Submit(thread: ThreadId, ok: bool)
    | Finish(run: RunId, done: set<int>, completed: bool)
    | EvictRun(run: RunId)
    | NewDay
    | SetEnabled(on: bool)
    | Detect(uids: seq<int>, rejected: set<int>)
    | ReleaseOne(id: int)
    | Crash

  function End(w: World, t: ThreadId): World { w.(threads := w.threads - {t}, lock := None) }

  function Moved(w: World, t: ThreadId, p: Phase): World
    requires t in w.threads
  {
    w.(threads := w.threads[t := w.threads[t].(phase := p)])
  }

  predicate At(w: World, t: ThreadId, p: Phase) { t in w.threads && w.threads[t].phase == p }

  // ------------------------------------------------------------------ before the lock

  /** Loading the trigger: a rolled-over day is noted on the loaded object, not yet written, and
      a cap already reached ends the cycle here. */
  function BeginStep(c: Settings, w: World, t: ThreadId, kind: Kind): World {
    var dirty := w.trigger.runsDate != w.today;
    if t in w.threads || (if dirty then 0 else w.trigger.runsToday) >= c.dailyCap then w
    else w.(threads := w.threads[t := Thread(kind, w.today, dirty, w.trigger.runsToday, w.trigger.messagesToday, Waiting)])
  }

  function AcquireStep(w: World, t: ThreadId): World {
    if At(w, t, Waiting) && w.lock.None? then Moved(w, t, Guarding).(lock := Some(t)) else w
  }

  // ------------------------------------------------------------------ under the lock

  /** A counter set to 0: the ORM writes it only if it was loaded as something else. */
  function Reset(loaded: nat, now: nat): nat { if loaded == 0 then now else 0 }

  /** The noted rollover as its thread's first commit writes it, whatever the row says by then;
      a transaction rolled back takes it along. */
  function Flushed(w: World, t: ThreadId): World
    requires t in w.threads
  {
    var k := w.threads[t];
    if !k.dirty then w
    else
      var runs := Reset(k.runs, w.trigger.runsToday);
      var same := w.trigger.runsDate == k.today;
      w.(trigger := w.trigger.(runsToday := runs, messagesToday := Reset(k.messages, w.trigger.messagesToday), runsDate := k.today),
         threads := w.threads[t := k.(dirty := false, runs := 0, messages := 0)],
         count := if same then w.count else 0,
         wiped := if same then w.wiped + (w.trigger.runsToday - runs) else 0,
         carried := if same then w.carried else runs)
  }

  predicate Runs(w: World, r: RunId) { r in w.running && w.running[r] }

  /** The watchdog: the row failed, its claim handed back, the guard no longer honours it. The
      worker itself cannot be stopped. */
  function WatchdogStep(c: Settings, w: World, r: RunId): World {
    w.(rows := w.rows[r := false], ledger := Release(w.ledger, r, c.maxAttempts), released := w.released + {r})
  }

  function GuardStep(c: Settings, w: World, t: ThreadId, overdue: bool): World {
    if !At(w, t, Guarding) then w
    else
      var last := w.trigger.lastRun;
      if last.Some? && Runs(w, last.value) then
        if overdue then Moved(WatchdogStep(c, Flushed(w, t), last.value), t, Passed) else End(Flushed(w, t), t)
      else Moved(w, t, Passed)
  }

  /** The count as the thread's own transaction shows it. */
  function FreshRunsToday(w: World, t: ThreadId): nat
    requires t in w.threads
  {
    var g := Flushed(w, t).trigger;
    if g.runsDate != w.threads[t].today then 0 else g.runsToday
  }

  /** An automatic cycle has committed what its mailbox check wrote; a retry only commits here if
      it ends here. */
  function CapStep(c: Settings, w: World, t: ThreadId): World {
    if !At(w, t, Passed) then w
    else if FreshRunsToday(w, t) >= c.dailyCap then End(Flushed(w, t), t)
    else Moved(if w.threads[t].kind.Auto? then Flushed(w, t) else w, t, Checked)
  }

  /** The other ends that commit: a cycle whose mailbox cannot be read or has nothing to do, and
      a retry that is already running or has nothing left. */
  function QuitStep(w: World, t: ThreadId): World {
    if t in w.threads && w.threads[t].phase == (if w.threads[t].kind.Auto? then Passed else Checked) then End(Flushed(w, t), t) else w
  }

  /** `remaining_messages` */
  function Remaining(cap: Option<nat>, used: nat): Option<nat> {
    if cap.None? then None else Some(if cap.value > used then cap.value - used else 0)
  }

  function ClaimLimit(c: Settings, cap: Option<nat>, used: nat): nat {
    var r := Remaining(cap, used);
    if r.None? || c.batchSize <= r.value then c.batchSize else r.value
  }

  /** An automatic cycle's claim, committed before anything is built and cut to what the cap
      leaves of the counter as loaded. The run id is registered first and discarded again when
      nothing is claimed. */
  function ClaimStep(c: Settings, w: World, t: ThreadId, overspent: bool, cap: Option<nat>): World {
    if !At(w, t, Checked) || !w.threads[t].kind.Auto? then w
    else
      var run, limit := w.nextRun, ClaimLimit(c, cap, w.threads[t].messages);
      var n := Min(CountWaiting(w.ledger, ORG, MAILBOX, w.trigger.generation), limit);
      if overspent || n <= 0 then End(w, t).(nextRun := run + 1)
      else Moved(w, t, Holding(run, n, cap)).(nextRun := run + 1, running := w.running[run := true],
                 ledger := Claim(w.ledger, ORG, MAILBOX, w.trigger.generation, run, limit))
  }

  function BuildStep(c: Settings, w: World, t: ThreadId, ok: bool): World {
    if t !in w.threads then w
    else
      var p := w.threads[t].phase;
      if p.Holding? then
        if ok then Moved(w, t, Built(p.run, p.messages, p.cap))
        else End(w, t).(running := w.running - {p.run}, ledger := Release(w.ledger, p.run, c.maxAttempts))
      else if p.Checked? && w.threads[t].kind.Retry? then
        if ok then Moved(w, t, Built(w.nextRun, 0, None)).(nextRun := w.nextRun + 1, running := w.running[w.nextRun := true])
        else End(w, t)
      else w
  }

  /** The statement that only an enabled trigger lets through, and the commit around it. */
  function SwapStep(c: Settings, w: World, t: ThreadId): World {
    if t !in w.threads || !w.threads[t].phase.Built? then w
    else
      var k, p := w.threads[t].kind, w.threads[t].phase;
      if !w.trigger.enabled then
        End(w, t).(running := w.running - {p.run}, ledger := if k.Auto? then Release(w.ledger, p.run, c.maxAttempts) else w.ledger)
      else
        var f := Flushed(w, t);
        Moved(f, t, Submitting(p.run)).(
          trigger := f.trigger.(runsToday := f.trigger.runsToday + 1, messagesToday := f.trigger.messagesToday + p.messages, lastRun := Some(p.run)),
          ledger := if k.Auto? then MarkDispatched(w.ledger, p.run) else ResolveRetry(w.ledger, k.from, p.run, k.retry, k.done),
          rows := w.rows[p.run := true], dispatched := w.dispatched + {p.run}, count := f.count + 1)
  }

  /** Handing the run to the executor. A refused automatic run hands its claim back; a refused
      retry does not. */
  function SubmitStep(c: Settings, w: World, t: ThreadId, ok: bool): World {
    if t !in w.threads || !w.threads[t].phase.Submitting? then w
    else
      var r := w.threads[t].phase.run;
      if ok then End(w, t)
      else End(w, t).(rows := w.rows[r := false], running := if Runs(w, r) then w.running[r := false] else w.running,
                      ledger := if w.threads[t].kind.Auto? then Release(w.ledger, r, c.maxAttempts) else w.ledger)
  }

  // ------------------------------------------------------------------ everything else

  /** A dispatched run whose worker can reach its end. */
  predicate CanFinish(w: World, r: RunId) {
    r in w.dispatched && Runs(w, r) && forall t :: t in w.threads ==> w.threads[t].phase != Submitting(r)
  }

  /** The worker's end: a terminal event and a terminal row; then, in a commit of its own whose
      failure is only logged, the batch's outcome. */
  function FinishStep(w: World, r: RunId, done: set<int>, completed: bool): World {
    if CanFinish(w, r)
    then w.(running := w.running[r := false], rows := w.rows[r := false], ledger := if completed then Complete(w.ledger, r, done) else w.ledger)
    else w
  }

  function ReleaseAll(c: Settings, l: Ledger): Ledger {
    seq(|l|, i requires 0 <= i < |l| => if l[i].status == Claimed && l[i].run.Some? then Released(l[i], l[i].run.value, c.maxAttempts) else l[i])
  }

  /** A new process, once its start-up sweep has run. */
  function CrashStep(c: Settings, w: World): World {
    w.(running := map[], threads := map[], lock := None, rows := map r | r in w.rows :: false, ledger := ReleaseAll(c, w.ledger))
  }

  function Apply(c: Settings, w: World, s: Step): World {
    match s
    case Begin(t, kind) => BeginStep(c, w, t, kind)
    case Acquire(t) => AcquireStep(w, t)
    case Guard(t, overdue) => GuardStep(c, w, t, overdue)
    case CapCheck(t) => CapStep(c, w, t)
    case TakeClaim(t, overspent, cap) => ClaimStep(c, w, t, overspent, cap)
    case Quit(t) => QuitStep(w, t)
    case Build(t, ok) => BuildStep(c, w, t, ok)
    case Swap(t) => SwapStep(c, w, t)
    case Submit(t, ok) => SubmitStep(c, w, t, ok)
    case Finish(r, done, completed) => FinishStep(w, r, done, completed)
    case EvictRun(r) => if r in w.running && !w.running[r] then w.(running := w.running - {r}) else w
    case NewDay => w.(today := w.today + 1)
    case SetEnabled(on) => w.(trigger := w.trigger.(enabled := on))
    case Detect(uids, rejected) => w.(ledger := Record(w.ledger, ORG, MAILBOX, w.trigger.generation, uids, rejected))
    case ReleaseOne(id) => w.(ledger := ReleaseFiltered(w.ledger, ORG, id))
    case Crash => CrashStep(c, w)
  }
}
