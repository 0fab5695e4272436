/** The in-memory run tracker (`ui/backend/registry.py`): a replayable log per run, a
    transient channel beside it, late joiners and bounded retention. */
module Registry {
  import opened Basics

  type RunId = int
  type QueueId = int
  type Who = int

  const MAX_RETAINED_RUNS: nat := 1000

  datatype TraceKind = RunCompleted | RunFailed | RunCancelled | AgentCompleted | SubagentCompleted | OtherTrace
  datatype WorkKind = TopLevel | Subordinate

  /** `Logged` goes to the log and to the subscribers; the other four only to the latter. */
  datatype Message =
    | Logged(kind: TraceKind, agent: Option<Who>, body: int)
    | Delta(text: string)
    | Reset
    | Working(who: Option<Who>, work: WorkKind, done: bool)
    | OtherTransient(what: int)

  datatype Status = Running | Completed | Failed | Cancelled

  type Team = seq<(Who, WorkKind)>

  // ------------------------------------------------------------------ what a client shows

  /** The log in order, the preview text, and who is working, in the order they started. */
  datatype View = View(log: seq<Message>, text: string, team: Team)

  const BLANK: View := View([], "", [])

  predicate Terminal(k: TraceKind) { k == RunCompleted || k == RunFailed || k == RunCancelled }

  predicate Present(team: Team, a: Who) { exists i :: 0 <= i < |team| && team[i].0 == a }

  function Without(team: Team, a: Who): Team {
    if team == [] then [] else (if team[0].0 == a then [] else [team[0]]) + Without(team[1..], a)
  }

  /** The first kind an agent is announced with stays. */
  function With(team: Team, a: Who, k: WorkKind): Team {
    if Present(team, a) then team else team + [(a, k)]
  }

  /** What a persisted event does to the team. */
  function LoggedTeam(team: Team, m: Message): Team
    requires m.Logged?
  {
    if Terminal(m.kind) then []
    else if (m.kind == AgentCompleted || m.kind == SubagentCompleted) && m.agent.Some? then Without(team, m.agent.value)
    else team
  }

  function WorkingTeam(team: Team, m: Message): Team
    requires m.Working? && m.who.Some?
  {
    if m.done then Without(team, m.who.value) else With(team, m.who.value, m.work)
  }

  function Show(v: View, m: Message): View {
    match m
    case Logged(kind, agent, _) => View(v.log + [m], if Terminal(kind) then "" else v.text, LoggedTeam(v.team, m))
    case Delta(text) => v.(text := v.text + text)
    case Reset => v.(text := "")
    case Working(who, _, _) => if who.None? then v else v.(team := WorkingTeam(v.team, m))
    case OtherTransient(_) => v
  }

  function Fold(v: View, ms: seq<Message>): View
    decreases |ms|
  {
    if ms == [] then v else Fold(Show(v, ms[0]), ms[1..])
  }

  function StatusAfter(s: Status, m: Message): Status {
    if m.Logged? && m.kind == RunCompleted then Completed
    else if m.Logged? && m.kind == RunFailed then Failed
    else if m.Logged? && m.kind == RunCancelled then Cancelled
    else s
  }

  // ------------------------------------------------------------------ the registry

  datatype RunRow = RunRow(status: Status, events: seq<Message>, input: string)

  /** `history` is every message sent to the run since it was created, for runs not purged,
      and `joined` how much of it a queue's owner had missed. The rest are the code's own
      dictionaries; `queues` holds what was put on each queue. */
  datatype State = State(
    order: seq<RunId>,
    runs: map<RunId, RunRow>,
    subscribers: map<RunId, seq<QueueId>>,
    cancel: map<RunId, bool>,
    text: map<RunId, string>,
    working: map<RunId, Team>,
    queues: map<QueueId, seq<Message>>,
    nextQueue: QueueId,
    history: map<RunId, seq<Message>>,
    joined: map<QueueId, nat>)

  const EMPTY: State := State([], map[], map[], map[], map[], map[], map[], 0, map[], map[])

  function TextOf(s: State, r: RunId): string { if r in s.text then s.text[r] else "" }

  function TeamOf(s: State, r: RunId): Team { if r in s.working then s.working[r] else [] }

  function QueuesOf(s: State, r: RunId): seq<QueueId> { if r in s.subscribers then s.subscribers[r] else [] }

  // ------------------------------------------------------------------ eviction

  predicate Evictable(s: State, r: RunId) {
    r in s.runs && s.runs[r].status != Running && QueuesOf(s, r) == []
  }

  function EvictableAmong(s: State, order: seq<RunId>): seq<RunId> {
    if order == [] then [] else (if Evictable(s, order[0]) then [order[0]] else []) + EvictableAmong(s, order[1..])
  }

  function Min(a: int, b: int): int { if a <= b then a else b }

  /** The oldest evictable runs, as many as the bound is exceeded by. */
  function Victims(s: State): seq<RunId> {
    var all := EvictableAmong(s, s.order);
    if |s.order| <= MAX_RETAINED_RUNS then [] else all[..Min(|s.order| - MAX_RETAINED_RUNS, |all|)]
  }

  function Keep(order: seq<RunId>, gone: set<RunId>): seq<RunId> {
    if order == [] then [] else (if order[0] in gone then [] else [order[0]]) + Keep(order[1..], gone)
  }

  function Drop(s: State, gone: set<RunId>): State {
    s.(order := Keep(s.order, gone), runs := s.runs - gone, subscribers := s.subscribers - gone, cancel := s.cancel - gone,
       text := s.text - gone, working := s.working - gone, history := s.history - gone)
  }

  function Members(rs: seq<RunId>): set<RunId> { set r | r in rs }

  function Evict(s: State): State { Drop(s, Members(Victims(s))) }

  // ------------------------------------------------------------------ the operations

  function Opened(s: State, r: RunId, input: string): State {
    s.(order := s.order + [r], runs := s.runs[r := RunRow(Running, [], input)],
       subscribers := s.subscribers[r := []], cancel := s.cancel[r := false], text := s.text[r := ""], working := s.working[r := []],
       history := s.history[r := []])
  }

  function Create(s: State, r: RunId, input: string): State { Evict(Opened(s, r, input)) }

  function Discard(s: State, r: RunId): State { Drop(s, {r}) }

  function Purge(s: State, r: RunId): State {
    if r !in s.runs || s.runs[r].status == Running then s
    else s.(runs := s.runs[r := s.runs[r].(input := "", events := [])], text := s.text - {r}, working := s.working - {r}, history := s.history - {r})
  }

  function RequestCancel(s: State, r: RunId): State {
    if r !in s.runs || s.runs[r].status != Running then s else s.(cancel := s.cancel[r := true])
  }

  /** One message put on every queue that follows the run. */
  function Sent(queues: map<QueueId, seq<Message>>, to: seq<QueueId>, m: Message): map<QueueId, seq<Message>> {
    map q | q in queues :: if q in to then queues[q] + [m] else queues[q]
  }

  function Recorded(s: State, r: RunId, m: Message): State {
    s.(queues := Sent(s.queues, QueuesOf(s, r), m), history := if r in s.history then s.history[r := s.history[r] + [m]] else s.history)
  }

  /** What a persisted event does to the dictionaries. */
  function Logs(s: State, r: RunId, m: Message): State
    requires m.Logged? && r in s.runs
  {
    s.(runs := s.runs[r := s.runs[r].(events := s.runs[r].events + [m], status := StatusAfter(s.runs[r].status, m))],
       text := if Terminal(m.kind) then s.text - {r} else s.text,
       working := if Terminal(m.kind) then s.working - {r}
                  else if r in s.working then s.working[r := LoggedTeam(s.working[r], m)] else s.working)
  }

  /** What a transient one does. */
  function Notes(s: State, r: RunId, m: Message): State
    requires !m.Logged?
  {
    s.(text := if m.Delta? then s.text[r := TextOf(s, r) + m.text] else if m.Reset? then s.text[r := ""] else s.text,
       working := if m.Working? && m.who.Some? then s.working[r := WorkingTeam(TeamOf(s, r), m)] else s.working)
  }

  function Publish(s: State, r: RunId, m: Message): State
    requires m.Logged?
  {
    if r !in s.runs then s else Recorded(Logs(s, r, m), r, m)
  }

  function PublishTransient(s: State, r: RunId, m: Message): State
    requires !m.Logged?
  {
    if r !in s.runs then s else Recorded(Notes(s, r, m), r, m)
  }

  /** One synthetic start for each agent still working. */
  function Starts(team: Team): seq<Message> {
    if team == [] then [] else [Working(Some(team[0].0), team[0].1, false)] + Starts(team[1..])
  }

  /** What a new subscriber's queue is loaded with. */
  function Replay(v: View): seq<Message> {
    v.log + (if v.text != "" then [Delta(v.text)] else []) + Starts(v.team)
  }

  function ServerView(s: State, r: RunId): View {
    View(if r in s.runs then s.runs[r].events else [], TextOf(s, r), TeamOf(s, r))
  }

  function Subscribe(s: State, r: RunId): State {
    if r !in s.runs then s
    else
      s.(queues := s.queues[s.nextQueue := Replay(ServerView(s, r))],
         subscribers := s.subscribers[r := QueuesOf(s, r) + [s.nextQueue]],
         nextQueue := s.nextQueue + 1,
         joined := s.joined[s.nextQueue := if r in s.history then |s.history[r]| else 0])
  }

  function Others(qs: seq<QueueId>, q: QueueId): seq<QueueId> {
    if qs == [] then [] else (if qs[0] == q then [] else [qs[0]]) + Others(qs[1..], q)
  }

  function Unsubscribe(s: State, r: RunId, q: QueueId): State {
    s.(subscribers := s.subscribers[r := Others(QueuesOf(s, r), q)])
  }

  datatype Op =
    | DoCreate(run: RunId, input: string)
    | DoDiscard(run: RunId)
    | DoPurge(run: RunId)
    | DoCancel(run: RunId)
    | DoPublish(run: RunId, message: Message)
    | DoSubscribe(run: RunId)
    | DoUnsubscribe(run: RunId, queue: QueueId)

  function Apply(s: State, op: Op): State {
    match op
    case DoCreate(r, input) => Create(s, r, input)
    case DoDiscard(r) => Discard(s, r)
    case DoPurge(r) => Purge(s, r)
    case DoCancel(r) => RequestCancel(s, r)
    case DoPublish(r, m) => if m.Logged? then Publish(s, r, m) else PublishTransient(s, r, m)
    case DoSubscribe(r) => Subscribe(s, r)
    case DoUnsubscribe(r, q) => Unsubscribe(s, r, q)
  }

  /** A created run's id was never used before. */
  predicate Fits(s: State, op: Op) { op.DoCreate? ==> op.run !in s.runs && op.run !in s.subscribers }
}
