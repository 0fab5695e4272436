/** Whenever it joined, every subscriber of a live run shows the same thing. */
module RegistryReplay {
  import opened Basics
  import opened Registry

  // ------------------------------------------------------------------ teams and folds

  predicate Unique(team: Team) { forall i, j :: 0 <= i < j < |team| ==> team[i].0 != team[j].0 }

  lemma {:induction false} WithoutKeeps(team: Team, a: Who)
    requires Unique(team)
    ensures Unique(Without(team, a))
    ensures forall x :: Present(Without(team, a), x) <==> Present(team, x) && x != a
  {
    if team != [] {
      var rest, head := team[1..], if team[0].0 == a then [] else [team[0]];
      WithoutKeeps(rest, a);
      var w := Without(rest, a);
      assert forall x :: Present(team, x) <==> x == team[0].0 || Present(rest, x) by {
        forall x | Present(rest, x) ensures Present(team, x) {
          var i :| 0 <= i < |rest| && rest[i].0 == x;
          assert team[i + 1].0 == x;
        }
      }
      forall x ensures Present(head + w, x) <==> (head != [] && x == team[0].0) || Present(w, x) {
        if Present(w, x) {
          var i :| 0 <= i < |w| && w[i].0 == x;
          assert (head + w)[|head| + i].0 == x;
        }
        if head != [] { assert (head + w)[0] == team[0]; }
        if Present(head + w, x) {
          var i :| 0 <= i < |head + w| && (head + w)[i].0 == x;
          assert i >= |head| ==> w[i - |head|].0 == x;
        }
      }
      if head != [] {
        assert !Present(rest, team[0].0) by {
          forall i | 0 <= i < |rest| ensures rest[i].0 != team[0].0 { assert rest[i] == team[i + 1]; }
        }
        forall i, j | 0 <= i < j < |head + w| ensures (head + w)[i].0 != (head + w)[j].0 {
          assert (head + w)[j] == w[j - 1];
          if i == 0 { assert Present(w, w[j - 1].0); }
        }
      }
    }
  }

  lemma WithKeeps(team: Team, a: Who, k: WorkKind)
    requires Unique(team)
    ensures Unique(With(team, a, k))
  {}

  predicate WellFormed(v: View) {
    (forall i :: 0 <= i < |v.log| ==> v.log[i].Logged?) && Unique(v.team)
  }

  lemma ShowKeeps(v: View, m: Message)
    requires WellFormed(v)
    ensures WellFormed(Show(v, m))
  {
    match m
    case Logged(_, agent, _) => if agent.Some? { WithoutKeeps(v.team, agent.value); }
    case Working(who, work, _) => if who.Some? { WithoutKeeps(v.team, who.value); WithKeeps(v.team, who.value, work); }
    case _ =>
  }

  lemma {:induction false} FoldKeeps(v: View, ms: seq<Message>)
    requires WellFormed(v)
    ensures WellFormed(Fold(v, ms))
    decreases |ms|
  {
    if ms != [] {
      ShowKeeps(v, ms[0]);
      FoldKeeps(Show(v, ms[0]), ms[1..]);
    }
  }

  lemma {:induction false} FoldAppend(v: View, a: seq<Message>, b: seq<Message>)
    ensures Fold(v, a + b) == Fold(Fold(v, a), b)
    decreases |a|
  {
    if a == [] {
      assert a + b == b;
    } else {
      assert (a + b)[1..] == a[1..] + b;
      FoldAppend(Show(v, a[0]), a[1..], b);
    }
  }

  lemma FoldOne(v: View, a: seq<Message>, m: Message)
    ensures Fold(v, a + [m]) == Show(Fold(v, a), m)
  {
    FoldAppend(v, a, [m]);
  }

  /** A log on its own leaves no preview and nobody working. */
  lemma {:induction false} FoldLog(v: View, log: seq<Message>)
    requires v.text == "" && v.team == [] && forall i :: 0 <= i < |log| ==> log[i].Logged?
    ensures Fold(v, log) == View(v.log + log, "", [])
    decreases |log|
  {
    if log != [] {
      FoldLog(Show(v, log[0]), log[1..]);
      assert v.log + [log[0]] + log[1..] == v.log + log;
    } else {
      assert v.log + log == v.log;
    }
  }

  lemma {:induction false} FoldStarts(v: View, team: Team)
    requires Unique(v.team + team)
    ensures Fold(v, Starts(team)) == v.(team := v.team + team)
    decreases |team|
  {
    if team == [] {
      assert v.team + team == v.team;
    } else {
      assert (v.team + team)[|v.team|] == team[0];
      assert v.team + team == v.team + [team[0]] + team[1..];
      assert !Present(v.team, team[0].0) by {
        forall i | 0 <= i < |v.team| ensures v.team[i].0 != team[0].0 { assert (v.team + team)[i] == v.team[i]; }
      }
      FoldStarts(v.(team := v.team + [team[0]]), team[1..]);
    }
  }

  /** The replay rebuilds the view it was made from. */
  lemma ReplayRebuilds(v: View)
    requires WellFormed(v)
    ensures Fold(BLANK, Replay(v)) == v
  {
    var preview := if v.text != "" then [Delta(v.text)] else [];
    FoldLog(BLANK, v.log);
    assert [] + v.log == v.log;
    var a := View(v.log, "", []);
    assert "" + v.text == v.text;
    var b := View(v.log, v.text, []);
    assert Fold(a, preview) == b by { if preview != [] { assert Fold(Show(a, preview[0]), preview[1..]) == Show(a, preview[0]); } }
    assert [] + v.team == v.team;
    FoldStarts(b, v.team);
    FoldAppend(BLANK, v.log + preview, Starts(v.team));
    FoldAppend(BLANK, v.log, preview);
    assert Replay(v) == v.log + preview + Starts(v.team);
  }

  // ------------------------------------------------------------------ the invariant

  function StatusFold(ms: seq<Message>): Status {
    if ms == [] then Running else StatusAfter(StatusFold(ms[..|ms| - 1]), ms[|ms| - 1])
  }

  /** What a queue holds: the replay it was loaded with, then every later message, once. */
  predicate QueueInv(s: State, r: RunId, q: QueueId) {
    && q in s.queues && q in s.joined
    && (r in s.history ==>
          && s.joined[q] <= |s.history[r]|
          && s.queues[q] == Replay(Fold(BLANK, s.history[r][..s.joined[q]])) + s.history[r][s.joined[q]..])
  }

  /** The dictionaries agree with the messages sent since the run was created. */
  predicate RunInv(s: State, r: RunId) {
    && r in s.runs && r in s.order && r in s.subscribers && r in s.cancel
    && (r in s.history ==> Fold(BLANK, s.history[r]) == ServerView(s, r) && StatusFold(s.history[r]) == s.runs[r].status)
  }

  ghost predicate Inv(s: State) {
    && Distinct(s.order)
    && (forall r :: r in s.order ==> r in s.runs)
    && s.history.Keys <= s.runs.Keys
    && (forall r :: r in s.runs ==> RunInv(s, r))
    && (forall r, q :: r in s.subscribers && q in s.subscribers[r] ==> q < s.nextQueue && r in s.runs && QueueInv(s, r, q))
    && (forall r1, r2, q :: r1 in s.subscribers && r2 in s.subscribers && q in s.subscribers[r1] && q in s.subscribers[r2] ==> r1 == r2)
  }

  /** The main fact about a reachable registry: any subscriber of a run that has not been
      purged shows what one present from its creation shows, and what the server holds. */
  lemma EverySubscriberAgrees(s: State, r: RunId, q: QueueId)
    requires Inv(s) && r in s.history && q in QueuesOf(s, r)
    ensures q in s.queues && Fold(BLANK, s.queues[q]) == Fold(BLANK, s.history[r]) == ServerView(s, r)
  {
    assert QueueInv(s, r, q) && RunInv(s, r);
    var h, n := s.history[r], s.joined[q];
    FoldKeeps(BLANK, h[..n]);
    ReplayRebuilds(Fold(BLANK, h[..n]));
    FoldAppend(BLANK, Replay(Fold(BLANK, h[..n])), h[n..]);
    FoldAppend(BLANK, h[..n], h[n..]);
    assert h[..n] + h[n..] == h;
  }

  /** A subscriber present from creation is sent the history itself. */
  lemma PresentFromCreation(s: State, r: RunId, q: QueueId)
    requires Inv(s) && r in s.history && q in QueuesOf(s, r) && s.joined[q] == 0
    ensures q in s.queues && s.queues[q] == s.history[r]
  {}

  // ------------------------------------------------------------------ messages

  lemma SentAt(s: State, r: RunId, m: Message, q: QueueId)
    requires QueueInv(s, r, q) && q in QueuesOf(s, r) && r in s.history
    ensures QueueInv(Recorded(s, r, m), r, q)
  {
    var h, n := s.history[r], s.joined[q];
    assert (h + [m])[..n] == h[..n];
    assert (h + [m])[n..] == h[n..] + [m];
  }

  /** The dictionaries move exactly as a client's view does. */
  lemma PublishShows(s: State, r: RunId, m: Message)
    requires r in s.runs && m.Logged?
    ensures ServerView(Publish(s, r, m), r) == Show(ServerView(s, r), m)
  {}

  lemma TransientShows(s: State, r: RunId, m: Message)
    requires r in s.runs && !m.Logged?
    ensures ServerView(PublishTransient(s, r, m), r) == Show(ServerView(s, r), m)
  {}

  function Sending(s: State, r: RunId, m: Message): State {
    if m.Logged? then Publish(s, r, m) else PublishTransient(s, r, m)
  }

  lemma SendingRun(s: State, r: RunId, m: Message)
    requires Inv(s) && r in s.runs
    ensures RunInv(Sending(s, r, m), r)
  {
    assert RunInv(s, r);
    if m.Logged? { PublishShows(s, r, m); } else { TransientShows(s, r, m); }
    if r in s.history {
      var h := s.history[r];
      FoldOne(BLANK, h, m);
      assert (h + [m])[..|h|] == h;
    }
  }

  lemma SendingQueues(s: State, r: RunId, m: Message, x: RunId, q: QueueId)
    requires Inv(s) && r in s.runs && x in s.subscribers && q in s.subscribers[x]
    ensures QueueInv(Sending(s, r, m), x, q)
  {
    assert QueueInv(s, x, q);
    if x == r {
      if r in s.history { SentAt(s, r, m, q); }
    } else {
      assert r in s.subscribers ==> q !in s.subscribers[r];
    }
  }

  /** Sending touches nobody's place in the registry. */
  lemma SendingFrame(s: State, r: RunId, m: Message)
    requires r in s.runs
    ensures var s' := Sending(s, r, m);
      && s'.order == s.order && s'.subscribers == s.subscribers && s'.nextQueue == s.nextQueue && s'.joined == s.joined && s'.cancel == s.cancel
      && s'.runs.Keys == s.runs.Keys && s'.history.Keys == s.history.Keys
  {}

  lemma SendingElsewhere(s: State, r: RunId, m: Message, x: RunId)
    requires RunInv(s, x) && x != r
    ensures RunInv(Sending(s, r, m), x)
  {
    UntouchedRun(s, r, m, x);
    SameRun(s, Sending(s, r, m), x);
  }

  predicate Same(s: State, s': State, x: RunId) {
    && x in s'.runs && s'.order == s.order && x in s'.subscribers && x in s'.cancel
    && x in s.runs && s'.runs[x] == s.runs[x]
    && TextOf(s', x) == TextOf(s, x) && TeamOf(s', x) == TeamOf(s, x)
    && (x in s'.history <==> x in s.history) && (x in s.history ==> s'.history[x] == s.history[x])
  }

  lemma SameRun(s: State, s': State, x: RunId)
    requires RunInv(s, x) && Same(s, s', x)
    ensures RunInv(s', x)
  {}

  lemma UntouchedRun(s: State, r: RunId, m: Message, x: RunId)
    requires x != r && x in s.runs && x in s.subscribers && x in s.cancel
    ensures Same(s, Sending(s, r, m), x)
  {
    if r in s.runs {
      if m.Logged? { UntouchedByPublish(s, r, m, x); } else { UntouchedByTransient(s, r, m, x); }
    }
  }

  lemma UntouchedByPublish(s: State, r: RunId, m: Message, x: RunId)
    requires x != r && r in s.runs && x in s.runs && x in s.subscribers && x in s.cancel && m.Logged?
    ensures Same(s, Publish(s, r, m), x)
  {}

  lemma UntouchedByTransient(s: State, r: RunId, m: Message, x: RunId)
    requires x != r && r in s.runs && x in s.runs && x in s.subscribers && x in s.cancel && !m.Logged?
    ensures Same(s, PublishTransient(s, r, m), x)
  {}

  lemma SendingKeeps(s: State, r: RunId, m: Message)
    requires Inv(s)
    ensures Inv(Sending(s, r, m))
  {
    if r in s.runs {
      var s' := Sending(s, r, m);
      SendingFrame(s, r, m);
      forall x | x in s'.runs ensures RunInv(s', x) {
        if x == r { SendingRun(s, r, m); } else { SendingElsewhere(s, r, m, x); }
      }
      forall x, q | x in s.subscribers && q in s.subscribers[x] ensures QueueInv(s', x, q) {
        SendingQueues(s, r, m, x, q);
      }
    }
  }

  // ------------------------------------------------------------------ joining and leaving

  lemma SubscribeKeeps(s: State, r: RunId)
    requires Inv(s)
    ensures Inv(Subscribe(s, r))
  {
    if r in s.runs {
      var s' := Subscribe(s, r);
      assert RunInv(s, r);
      if r in s.history { assert s.history[r][..|s.history[r]|] == s.history[r]; }
      forall x | x in s'.runs ensures RunInv(s', x) { assert RunInv(s, x); }
      forall x, q | x in s'.subscribers && q in s'.subscribers[x] ensures q < s'.nextQueue && x in s'.runs && QueueInv(s', x, q) {
        if q != s.nextQueue { assert q in s.subscribers[x] && QueueInv(s, x, q); }
      }
      forall x1, x2, q | x1 in s'.subscribers && x2 in s'.subscribers && q in s'.subscribers[x1] && q in s'.subscribers[x2] ensures x1 == x2 {
        assert q != s.nextQueue ==> q in s.subscribers[x1] && q in s.subscribers[x2];
        assert q == s.nextQueue ==> (x1 in s.subscribers ==> q !in s.subscribers[x1]) && (x2 in s.subscribers ==> q !in s.subscribers[x2]);
      }
    }
  }

  lemma {:induction false} OthersIn(qs: seq<QueueId>, q: QueueId)
    ensures forall x :: x in Others(qs, q) <==> x in qs && x != q
  {
    if qs != [] { OthersIn(qs[1..], q); }
  }

  lemma UnsubscribeKeeps(s: State, r: RunId, q: QueueId)
    requires Inv(s)
    ensures Inv(Unsubscribe(s, r, q))
  {
    var s' := Unsubscribe(s, r, q);
    OthersIn(QueuesOf(s, r), q);
    forall x | x in s'.runs ensures RunInv(s', x) { assert RunInv(s, x); }
    forall x, y | x in s'.subscribers && y in s'.subscribers[x] ensures y < s'.nextQueue && x in s'.runs && QueueInv(s', x, y) {
      assert y in s.subscribers[x] && QueueInv(s, x, y);
    }
  }

  lemma PurgeKeeps(s: State, r: RunId)
    requires Inv(s)
    ensures Inv(Purge(s, r))
  {}

  lemma CancelKeeps(s: State, r: RunId)
    requires Inv(s)
    ensures Inv(RequestCancel(s, r))
  {}

  // ------------------------------------------------------------------ eviction

  lemma {:induction false} KeepIn(order: seq<RunId>, gone: set<RunId>)
    requires Distinct(order)
    ensures forall r :: r in Keep(order, gone) <==> r in order && r !in gone
    ensures Distinct(Keep(order, gone))
  {
    if order != [] {
      var head, rest := order[0], Keep(order[1..], gone);
      KeepIn(order[1..], gone);
      assert head !in order[1..];
      assert forall r :: r in order <==> r == head || r in order[1..];
      if head !in gone { DistinctCons(head, rest); }
      assert Keep(order, gone) == if head in gone then rest else [head] + rest;
    }
  }

  lemma DistinctCons(head: RunId, rest: seq<RunId>)
    requires Distinct(rest) && head !in rest
    ensures Distinct([head] + rest)
  {}

  lemma DropKeeps(s: State, gone: set<RunId>)
    requires Inv(s)
    ensures Inv(Drop(s, gone))
  {
    var s' := Drop(s, gone);
    KeepIn(s.order, gone);
    forall x | x in s'.runs ensures RunInv(s', x) { assert RunInv(s, x); }
    forall x, q | x in s'.subscribers && q in s'.subscribers[x] ensures q < s'.nextQueue && x in s'.runs && QueueInv(s', x, q) {
      assert QueueInv(s, x, q);
    }
  }

  lemma OpenKeeps(s: State, r: RunId, input: string)
    requires Inv(s) && r !in s.runs && r !in s.subscribers
    ensures Inv(Opened(s, r, input))
  {
    var s' := Opened(s, r, input);
    forall x | x in s'.runs ensures RunInv(s', x) { if x != r { assert RunInv(s, x); } }
    forall x, q | x in s'.subscribers && q in s'.subscribers[x] ensures QueueInv(s', x, q) { assert QueueInv(s, x, q); }
  }

  lemma StepKeeps(s: State, op: Op)
    requires Inv(s) && Fits(s, op)
    ensures Inv(Apply(s, op))
  {
    match op
    case DoCreate(r, input) => OpenKeeps(s, r, input); DropKeeps(Opened(s, r, input), Members(Victims(Opened(s, r, input))));
    case DoDiscard(r) => DropKeeps(s, {r});
    case DoPurge(r) => PurgeKeeps(s, r);
    case DoCancel(r) => CancelKeeps(s, r);
    case DoPublish(r, m) => SendingKeeps(s, r, m);
    case DoSubscribe(r) => SubscribeKeeps(s, r);
    case DoUnsubscribe(r, q) => UnsubscribeKeeps(s, r, q);
  }

  // ------------------------------------------------------------------ any schedule

  function Run(s: State, ops: seq<Op>): State
    decreases |ops|
  {
    if ops == [] then s else Run(Apply(s, ops[0]), ops[1..])
  }

  predicate RunFits(s: State, ops: seq<Op>)
    decreases |ops|
  {
    ops == [] || (Fits(s, ops[0]) && RunFits(Apply(s, ops[0]), ops[1..]))
  }

  lemma {:induction false} RunKeeps(s: State, ops: seq<Op>)
    requires Inv(s) && RunFits(s, ops)
    ensures Inv(Run(s, ops))
    decreases |ops|
  {
    if ops != [] {
      StepKeeps(s, ops[0]);
      RunKeeps(Apply(s, ops[0]), ops[1..]);
    }
  }

  /** Late joiners: after any schedule of creations, messages, subscriptions, cancellations,
      evictions and purges of other runs. */
  lemma LateJoinersAgree(ops: seq<Op>, r: RunId, q: QueueId)
    requires RunFits(EMPTY, ops) && r in Run(EMPTY, ops).history && q in QueuesOf(Run(EMPTY, ops), r)
    ensures var s := Run(EMPTY, ops);
      q in s.queues && Fold(BLANK, s.queues[q]) == Fold(BLANK, s.history[r]) == ServerView(s, r) && r in s.runs && s.runs[r].status == StatusFold(s.history[r])
  {
    RunKeeps(EMPTY, ops);
    EverySubscriberAgrees(Run(EMPTY, ops), r, q);
    assert RunInv(Run(EMPTY, ops), r);
  }
}
