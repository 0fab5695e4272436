/** The registry's methods as the code runs them, and what its bound evicts. */
module RegistryStore {
  import opened Basics
  import opened Registry
  import opened RegistryReplay
  import R = Registry

  // ------------------------------------------------------------------ the bound

  lemma {:induction false} AmongAppend(s: State, a: seq<RunId>, r: RunId)
    ensures EvictableAmong(s, a + [r]) == EvictableAmong(s, a) + (if Evictable(s, r) then [r] else [])
  {
    if a == [] {
      assert a + [r] == [r] && [r][1..] == [];
    } else {
      assert (a + [r])[1..] == a[1..] + [r];
      AmongAppend(s, a[1..], r);
    }
  }

  lemma {:induction false} AmongIn(s: State, order: seq<RunId>)
    ensures forall r :: r in EvictableAmong(s, order) <==> r in order && Evictable(s, r)
  {
    if order != [] {
      AmongIn(s, order[1..]);
      assert forall r :: r in order <==> r == order[0] || r in order[1..];
    }
  }

  lemma {:induction false} AmongPrefix(s: State, order: seq<RunId>, i: nat)
    requires i <= |order|
    ensures EvictableAmong(s, order[..i]) <= EvictableAmong(s, order)
    decreases |order| - i
  {
    if i == |order| {
      assert order[..i] == order;
    } else {
      assert order[..i + 1] == order[..i] + [order[i]];
      AmongAppend(s, order[..i], order[i]);
      AmongPrefix(s, order, i + 1);
    }
  }

  lemma {:induction false} KeepCount(order: seq<RunId>, x: RunId)
    requires Distinct(order)
    ensures |Keep(order, {x})| == |order| - (if x in order then 1 else 0)
  {
    if order != [] {
      assert Distinct(order[1..]);
      assert order[0] !in order[1..];
      assert x in order <==> x == order[0] || x in order[1..];
      KeepCount(order[1..], x);
    }
  }

  lemma {:induction false} KeepTwice(order: seq<RunId>, gone: set<RunId>, x: RunId)
    ensures Keep(Keep(order, gone), {x}) == Keep(order, gone + {x})
  {
    if order != [] {
      KeepTwice(order[1..], gone, x);
      var rest := Keep(order[1..], gone);
      if order[0] !in gone {
        assert Keep(order, gone) == [order[0]] + rest;
        assert ([order[0]] + rest)[1..] == rest;
      } else {
        assert Keep(order, gone) == rest;
      }
    }
  }

  lemma {:induction false} KeepNone(order: seq<RunId>)
    ensures Keep(order, {}) == order
  {
    if order != [] { KeepNone(order[1..]); }
  }

  lemma DropTwice(s: State, gone: set<RunId>, x: RunId)
    ensures Drop(Drop(s, gone), {x}) == Drop(s, gone + {x})
  {
    KeepTwice(s.order, gone, x);
    assert s.runs - gone - {x} == s.runs - (gone + {x});
    assert s.subscribers - gone - {x} == s.subscribers - (gone + {x});
    assert s.cancel - gone - {x} == s.cancel - (gone + {x});
    assert s.text - gone - {x} == s.text - (gone + {x});
    assert s.working - gone - {x} == s.working - (gone + {x});
    assert s.history - gone - {x} == s.history - (gone + {x});
  }

  lemma DropNone(s: State)
    ensures Drop(s, {}) == s
  {
    KeepNone(s.order);
  }

  /** A run that is running, or that someone follows, outlives every creation. */
  lemma LiveRunsAreNeverEvicted(s: State, r: RunId, input: string, x: RunId)
    requires x in Opened(s, r, input).runs && !Evictable(Opened(s, r, input), x)
    ensures x in Create(s, r, input).runs && Create(s, r, input).runs[x] == Opened(s, r, input).runs[x]
  {
    var o := Opened(s, r, input);
    AmongIn(o, o.order);
    assert x !in Victims(o) by { assert forall y :: y in Victims(o) ==> y in EvictableAmong(o, o.order); }
  }

  lemma {:induction false} KeepAllCount(order: seq<RunId>, gone: seq<RunId>)
    requires Distinct(order) && Distinct(gone) && forall x :: x in gone ==> x in order
    ensures |Keep(order, Members(gone))| == |order| - |gone|
    decreases |gone|
  {
    if gone == [] {
      assert Members(gone) == {};
      KeepNone(order);
    } else {
      var n := |gone| - 1;
      var x := gone[n];
      KeepAllCount(order, gone[..n]);
      assert x !in gone[..n];
      KeepIn(order, Members(gone[..n]));
      KeepCount(Keep(order, Members(gone[..n])), x);
      KeepTwice(order, Members(gone[..n]), x);
      assert Members(gone) == Members(gone[..n]) + {x};
    }
  }

  lemma {:induction false} AmongDistinct(s: State, order: seq<RunId>)
    requires Distinct(order)
    ensures Distinct(EvictableAmong(s, order))
  {
    if order != [] {
      AmongDistinct(s, order[1..]);
      AmongIn(s, order[1..]);
      assert order[0] !in order[1..];
      if Evictable(s, order[0]) { DistinctCons(order[0], EvictableAmong(s, order[1..])); }
    }
  }

  /** Eviction goes exactly as far as it has to and can: down to the bound, or until nothing
      evictable is left, oldest first. */
  lemma EvictionIsExact(s: State)
    requires Distinct(s.order)
    ensures var s' := Evict(s); var all := EvictableAmong(s, s.order);
      && |s'.order| == |s.order| - |Victims(s)|
      && (|s.order| <= MAX_RETAINED_RUNS ==> s' == s)
      && (|s.order| > MAX_RETAINED_RUNS ==> |s'.order| >= MAX_RETAINED_RUNS)
      && (|s'.order| > MAX_RETAINED_RUNS ==> Victims(s) == all)
      && Victims(s) <= all
  {
    AmongIn(s, s.order);
    AmongDistinct(s, s.order);
    var all := EvictableAmong(s, s.order);
    assert Distinct(Victims(s));
    assert forall x :: x in Victims(s) ==> x in all;
    KeepAllCount(s.order, Victims(s));
    if |s.order| <= MAX_RETAINED_RUNS {
      assert Members(Victims(s)) == {};
      DropNone(s);
    }
  }

  /** A follower's queue is registered once, so a message reaches it once. */
  ghost predicate OnceEach(s: State) {
    forall r :: r in s.subscribers ==> Distinct(s.subscribers[r]) && forall q :: q in s.subscribers[r] ==> q < s.nextQueue
  }

  lemma {:induction false} OthersDistinct(qs: seq<QueueId>, q: QueueId)
    requires Distinct(qs)
    ensures Distinct(Others(qs, q))
  {
    if qs != [] {
      OthersDistinct(qs[1..], q);
      OthersIn(qs[1..], q);
      assert qs[0] !in qs[1..];
      if qs[0] != q { DistinctCons(qs[0], Others(qs[1..], q)); }
    }
  }

  lemma OnceEachKeeps(s: State, op: Op)
    requires OnceEach(s)
    ensures OnceEach(Apply(s, op))
  {
    match op
    case DoUnsubscribe(r, q) => OthersDistinct(QueuesOf(s, r), q); OthersIn(QueuesOf(s, r), q);
    case DoSubscribe(r) =>
      var qs := QueuesOf(s, r);
      assert s.nextQueue !in qs;
      assert Distinct(qs + [s.nextQueue]);
    case DoPublish(r, m) => if r in s.runs { SendingFrame(s, r, m); }
    case _ =>
  }

  // ------------------------------------------------------------------ the methods

  lemma {:induction false} StartsAt(team: Team)
    ensures |Starts(team)| == |team| && forall i :: 0 <= i < |team| ==> Starts(team)[i] == Working(Some(team[i].0), team[i].1, false)
  {
    if team != [] {
      StartsAt(team[1..]);
    }
  }

  /** The messages a new queue is loaded with, one `put_nowait` at a time. */
  method Load(log: seq<Message>, text: string, team: Team) returns (loaded: seq<Message>)
    ensures loaded == Replay(View(log, text, team))
  {
    loaded := [];
    for i := 0 to |log|
      invariant loaded == log[..i]
    {
      loaded := loaded + [log[i]];
    }
    if text != "" {
      loaded := loaded + [Delta(text)];
    }
    ghost var before := loaded;
    StartsAt(team);
    for i := 0 to |team|
      invariant loaded == before + Starts(team)[..i]
    {
      loaded := loaded + [Working(Some(team[i].0), team[i].1, false)];
    }
  }

  /** One message put on every follower's queue, one queue at a time. */
  method PutAll(queues: map<QueueId, seq<Message>>, to: seq<QueueId>, m: Message) returns (after: map<QueueId, seq<Message>>)
    requires Distinct(to)
    ensures after == Sent(queues, to, m)
  {
    after := queues;
    for i := 0 to |to|
      invariant after == Sent(queues, to[..i], m)
    {
      assert to[i] !in to[..i];
      assert to[..i + 1] == to[..i] + [to[i]];
      if to[i] in after {
        after := after[to[i] := after[to[i]] + [m]];
      }
    }
    assert to[..|to|] == to;
  }

  class RunRegistry {
    var order: seq<RunId>
    var runs: map<RunId, RunRow>
    var subscribers: map<RunId, seq<QueueId>>
    var cancelFlags: map<RunId, bool>
    var liveText: map<RunId, string>
    var liveWorking: map<RunId, Team>
    var queues: map<QueueId, seq<Message>>
    var nextQueue: QueueId
    ghost var history: map<RunId, seq<Message>>
    ghost var joined: map<QueueId, nat>

    ghost function Now(): State
      reads this
    {
      State(order, runs, subscribers, cancelFlags, liveText, liveWorking, queues, nextQueue, history, joined)
    }

    constructor ()
      ensures Now() == EMPTY
    {
      order, runs, subscribers, cancelFlags := [], map[], map[], map[];
      liveText, liveWorking, queues, nextQueue, history, joined := map[], map[], map[], 0, map[], map[];
    }

    method Create(r: RunId, text: string)
      requires Distinct(order) && r !in order
      modifies this
      ensures Now() == R.Create(old(Now()), r, text)
    {
      Open(r, text);
      EvictIfOverBound();
    }

    method Open(r: RunId, text: string)
      requires Distinct(order) && r !in order
      modifies this
      ensures Now() == Opened(old(Now()), r, text) && Distinct(order)
    {
      order := order + [r];
      runs := runs[r := RunRow(Running, [], text)];
      subscribers, cancelFlags := subscribers[r := []], cancelFlags[r := false];
      liveText, liveWorking, history := liveText[r := ""], liveWorking[r := []], history[r := []];
    }

    /** `discard`, and the deletions eviction makes. */
    method Discard(r: RunId)
      modifies this
      ensures Now() == Drop(old(Now()), {r})
    {
      order := Keep(order, {r});
      runs := runs - {r};
      subscribers, cancelFlags := subscribers - {r}, cancelFlags - {r};
      liveText, liveWorking, history := liveText - {r}, liveWorking - {r}, history - {r};
    }

    method EvictIfOverBound()
      requires Distinct(order)
      modifies this
      ensures Now() == Evict(old(Now()))
    {
      ghost var s := Now();
      DropNone(s);
      if |order| <= MAX_RETAINED_RUNS {
        assert Members(Victims(s)) == {};
        return;
      }
      var listed := order;
      ghost var gone: seq<RunId> := [];
      ghost var all := EvictableAmong(s, s.order);
      assert Members(gone) == {};
      for i := 0 to |listed|
        invariant gone == EvictableAmong(s, listed[..i]) && gone <= all
        invariant Now() == Drop(s, Members(gone)) && Distinct(order)
        invariant |order| == |listed| - |gone| && |order| >= MAX_RETAINED_RUNS
      {
        if |order| <= MAX_RETAINED_RUNS {
          assert gone == all[..|gone|] == Victims(s);
          return;
        }
        var r := listed[i];
        EvictionStep(s, listed, i, gone);
        if r in runs && runs[r].status != Running && (r !in subscribers || subscribers[r] == []) {
          KeepCount(order, r);
          KeepIn(order, {r});
          Discard(r);
          gone := gone + [r];
        }
      }
      assert listed[..|listed|] == listed;
      assert all[..|all|] == all;
    }

    method PurgeContent(r: RunId) returns (purged: bool)
      modifies this
      ensures Now() == R.Purge(old(Now()), r)
      ensures purged == (r in old(runs) && old(runs)[r].status != Running)
    {
      if r !in runs || runs[r].status == Running {
        return false;
      }
      runs := runs[r := runs[r].(input := "", events := [])];
      liveText, liveWorking, history := liveText - {r}, liveWorking - {r}, history - {r};
      return true;
    }

    method RequestCancel(r: RunId) returns (ok: bool)
      modifies this`cancelFlags
      ensures Now() == R.RequestCancel(old(Now()), r)
      ensures ok == (r in runs && runs[r].status == Running)
    {
      if r !in runs || runs[r].status != Running {
        return false;
      }
      cancelFlags := cancelFlags[r := true];
      return true;
    }

    method FanOut(r: RunId, m: Message)
      requires Distinct(QueuesOf(Now(), r))
      modifies this`queues, this`history
      ensures Now() == Recorded(old(Now()), r, m)
    {
      queues := PutAll(queues, if r in subscribers then subscribers[r] else [], m);
      history := if r in history then history[r := history[r] + [m]] else history;
    }

    method Publish(r: RunId, m: Message)
      requires m.Logged?
      requires Distinct(QueuesOf(Now(), r))
      modifies this
      ensures Now() == R.Publish(old(Now()), r, m)
    {
      if r !in runs {
        return;
      }
      var run := runs[r].(events := runs[r].events + [m]);
      if m.kind == RunCompleted {
        run := run.(status := Completed);
      } else if m.kind == RunFailed {
        run := run.(status := Failed);
      } else if m.kind == RunCancelled {
        run := run.(status := Cancelled);
      }
      runs := runs[r := run];
      if (m.kind == AgentCompleted || m.kind == SubagentCompleted) && m.agent.Some? && r in liveWorking {
        liveWorking := liveWorking[r := Without(liveWorking[r], m.agent.value)];
      }
      if Terminal(m.kind) {
        liveText, liveWorking := liveText - {r}, liveWorking - {r};
      }
      assert Now() == Logs(old(Now()), r, m);
      FanOut(r, m);
    }

    method PublishTransient(r: RunId, m: Message)
      requires !m.Logged?
      requires Distinct(QueuesOf(Now(), r))
      modifies this
      ensures Now() == R.PublishTransient(old(Now()), r, m)
    {
      if r !in runs {
        return;
      }
      if m.Delta? {
        liveText := liveText[r := (if r in liveText then liveText[r] else "") + m.text];
      } else if m.Reset? {
        liveText := liveText[r := ""];
      } else if m.Working? && m.who.Some? {
        var team := if r in liveWorking then liveWorking[r] else [];
        if m.done {
          team := Without(team, m.who.value);
        } else if !Present(team, m.who.value) {
          team := team + [(m.who.value, m.work)];
        }
        liveWorking := liveWorking[r := team];
      }
      FanOut(r, m);
    }

    /** A queue loaded with the log, the preview so far and one start per agent at work. */
    method Subscribe(r: RunId) returns (queue: Option<QueueId>)
      modifies this
      ensures Now() == R.Subscribe(old(Now()), r)
      ensures queue == if r in old(runs) then Some(old(nextQueue)) else None
    {
      if r !in runs {
        return None;
      }
      var loaded := Load(runs[r].events, if r in liveText then liveText[r] else "",
                         if r in liveWorking then liveWorking[r] else []);
      queues := queues[nextQueue := loaded];
      subscribers := subscribers[r := (if r in subscribers then subscribers[r] else []) + [nextQueue]];
      joined := joined[nextQueue := if r in history then |history[r]| else 0];
      queue := Some(nextQueue);
      nextQueue := nextQueue + 1;
    }

    method Unsubscribe(r: RunId, q: QueueId)
      modifies this`subscribers
      ensures Now() == R.Unsubscribe(old(Now()), r, q)
    {
      subscribers := subscribers[r := Others(if r in subscribers then subscribers[r] else [], q)];
    }
  }

  /** One turn of the eviction loop: the run is judged as it stood before any deletion. */
  lemma EvictionStep(s: State, listed: seq<RunId>, i: nat, gone: seq<RunId>)
    requires Distinct(s.order) && listed == s.order && i < |listed| && gone == EvictableAmong(s, listed[..i])
    ensures var now := Drop(s, Members(gone)); var r := listed[i];
      && r in now.order
      && (Evictable(now, r) <==> Evictable(s, r))
      && EvictableAmong(s, listed[..i + 1]) == gone + (if Evictable(s, r) then [r] else [])
      && EvictableAmong(s, listed[..i + 1]) <= EvictableAmong(s, listed)
      && Drop(now, {r}) == Drop(s, Members(gone + [r]))
  {
    var r := listed[i];
    AmongIn(s, listed[..i]);
    assert r !in listed[..i];
    assert r !in gone;
    KeepIn(s.order, Members(gone));
    assert listed[..i + 1] == listed[..i] + [r];
    AmongAppend(s, listed[..i], r);
    AmongPrefix(s, listed, i + 1);
    DropTwice(s, Members(gone), r);
    assert Members(gone + [r]) == Members(gone) + {r};
  }
}
