/** How many attempts a window can hold, and what the sweeps cost. */
module LoginBounds {
  import opened Basics
  import opened LoginLimiter
  import opened LoginHistory

  // ------------------------------------------------------------------ one key's history

  /** Attempts a whole `slots` apart are a whole window apart. */
  predicate Spaced(h: seq<real>, slots: nat, window: real) {
    forall i, j :: 0 <= i < |h| && 0 <= j < |h| && i + slots <= j ==> h[j] - h[i] >= window
  }

  lemma {:induction false} InWindowIsLater(h: seq<real>, cutoff: real)
    ensures forall i :: 0 <= i < |InWindow(h, cutoff)| ==> InWindow(h, cutoff)[i] > cutoff
  {
    if h != [] { InWindowIsLater(h[..|h| - 1], cutoff); }
  }

  lemma {:induction false} InWindowHolds(h: seq<real>, cutoff: real, m: nat)
    requires m <= |h| && forall i :: m <= i < |h| ==> h[i] > cutoff
    ensures |InWindow(h, cutoff)| >= |h| - m
  {
    if m < |h| { InWindowHolds(h[..|h| - 1], cutoff, m); }
  }

  lemma {:induction false} InWindowShrinks(h: seq<real>, a: real, b: real)
    requires a <= b
    ensures |InWindow(h, b)| <= |InWindow(h, a)|
  {
    if h != [] { InWindowShrinks(h[..|h| - 1], a, b); }
  }

  /** A key that makes nobody wait has a free slot. */
  lemma FreeSlot(h: seq<real>, limit: int, window: real, now: real)
    requires WaitOf(InWindow(h, now - window), limit, window, now) <= 0.0
    ensures |InWindow(h, now - window)| < if limit > 1 then limit else 1
  {
    InWindowIsLater(h, now - window);
  }

  lemma SpacedAppend(h: seq<real>, slots: nat, window: real, now: real)
    requires Sorted(h) && Spaced(h, slots, window) && slots >= 1 && forall i :: 0 <= i < |h| ==> h[i] <= now
    requires |InWindow(h, now - window)| < slots
    ensures Spaced(h + [now], slots, window)
  {
    if |h| >= slots {
      var m := |h| - slots;
      if h[m] > now - window {
        InWindowHolds(h, now - window, m);
      }
      assert h[m] <= now - window;
    }
  }

  // ------------------------------------------------------------------ the whole history

  predicate TidySeq(h: seq<real>, slots: nat, window: real, clock: real) {
    Sorted(h) && Spaced(h, slots, window) && forall i :: 0 <= i < |h| ==> h[i] <= clock
  }

  predicate TidyAt(c: Limits, h: Log, clock: real, k: Key) { TidySeq(Stored(h, k), Slots(c, k), c.window, clock) }

  ghost predicate Tidy(c: Limits, h: Log, clock: real) { forall k :: TidyAt(c, h, clock, k) }

  function ClockAfter(x: Call, clock: real): real { if x.Attempt? then x.now else clock }

  lemma TidyAppends(h: seq<real>, slots: nat, window: real, clock: real, now: real)
    requires TidySeq(h, slots, window, clock) && now >= clock && slots >= 1
    ensures TidySeq(h, slots, window, now)
    ensures |InWindow(h, now - window)| < slots ==> TidySeq(h + [now], slots, window, now)
  {
    if |InWindow(h, now - window)| < slots { SpacedAppend(h, slots, window, now); }
  }

  lemma TidyForgives(h: seq<real>, slots: nat, window: real, clock: real, user: int, ip: Option<int>, k: Key)
    requires TidySeq(h, slots, window, clock)
    ensures TidySeq(ForgivenSeq(k, user, ip, h), slots, window, clock)
  {}

  lemma SuccessTidy(c: Limits, h: Log, clock: real, user: int, ip: Option<int>)
    requires Tidy(c, h, clock)
    ensures Tidy(c, HistoryForgiven(h, user, ip), clock)
  {
    forall k ensures TidyAt(c, HistoryForgiven(h, user, ip), clock, k) {
      assert TidyAt(c, h, clock, k);
      ForgivenAt(c, map[], h, user, ip, k);
      TidyForgives(Stored(h, k), Slots(c, k), c.window, clock, user, ip, k);
    }
  }

  lemma LaterTidy(c: Limits, h: Log, clock: real, now: real)
    requires Tidy(c, h, clock) && now >= clock
    ensures Tidy(c, h, now)
  {
    forall k ensures TidyAt(c, h, now, k) {
      assert TidyAt(c, h, clock, k);
      TidyAppends(Stored(h, k), Slots(c, k), c.window, clock, now);
    }
  }

  lemma AdmittedTidyAt(c: Limits, h: Log, clock: real, ks: set<Key>, now: real, k: Key)
    requires TidyAt(c, h, clock, k) && now >= clock && (k in ks ==> |InWindow(Stored(h, k), now - c.window)| < Slots(c, k))
    ensures TidyAt(c, Appended(h, ks, now), now, k)
  {
    AppendedAt(h, ks, now, k);
    TidyAppends(Stored(h, k), Slots(c, k), c.window, clock, now);
  }

  lemma StepTidy(c: Limits, h: Log, clock: real, x: Call)
    requires Tidy(c, h, clock) && (x.Attempt? ==> x.now >= clock)
    ensures Tidy(c, HistoryAfter(c, h, x), ClockAfter(x, clock))
  {
    if x.Succeeded? {
      SuccessTidy(c, h, clock, x.user, x.ip);
    } else if HistoryReply(c, h, x).Some? {
      LaterTidy(c, h, clock, x.now);
    } else {
      forall k ensures TidyAt(c, Appended(h, Keys(x.user, x.ip), x.now), x.now, k) {
        assert TidyAt(c, h, clock, k);
        if k in Keys(x.user, x.ip) { AdmittedHasSlot(c, h, x, k); }
        AdmittedTidyAt(c, h, clock, Keys(x.user, x.ip), x.now, k);
      }
    }
  }

  lemma AdmittedHasSlot(c: Limits, h: Log, x: Call, k: Key)
    requires x.Attempt? && HistoryReply(c, h, x).None? && k in Keys(x.user, x.ip)
    ensures |InWindow(Stored(h, k), x.now - c.window)| < Slots(c, k)
  {
    FreeSlot(Stored(h, k), LimitFor(c, k), c.window, x.now);
  }

  function RunClock(calls: seq<Call>, clock: real): real
    decreases |calls|
  {
    if calls == [] then clock else RunClock(calls[1..], ClockAfter(calls[0], clock))
  }

  /** The limiter and the history, side by side after any run. */
  lemma {:induction false} RunLinked(c: Limits, st: State, h: Log, clock: real, calls: seq<Call>)
    requires Linked(c, st.failures, h, clock) && Tidy(c, h, clock) && Monotone(calls, clock)
    ensures Linked(c, Run(c, st, calls).failures, HistoryRun(c, h, calls), RunClock(calls, clock))
    ensures Tidy(c, HistoryRun(c, h, calls), RunClock(calls, clock))
    decreases |calls|
  {
    if calls != [] {
      StepAgrees(c, st, h, clock, calls[0]);
      StepTidy(c, h, clock, calls[0]);
      RunLinked(c, After(c, st, calls[0]), HistoryAfter(c, h, calls[0]), ClockAfter(calls[0], clock), calls[1..]);
    }
  }

  lemma {:induction false} HistoryTidy(c: Limits, h: Log, clock: real, calls: seq<Call>)
    requires Tidy(c, h, clock) && Monotone(calls, clock)
    ensures Tidy(c, HistoryRun(c, h, calls), RunClock(calls, clock))
    decreases |calls|
  {
    if calls != [] {
      StepTidy(c, h, clock, calls[0]);
      HistoryTidy(c, HistoryAfter(c, h, calls[0]), ClockAfter(calls[0], clock), calls[1..]);
    }
  }

  // ------------------------------------------------------------------ windows

  predicate Forgives(x: Call, k: Key) { x.Succeeded? && k in Keys(x.user, x.ip) }

  /** When the attempts under this key that were answered `None` were made. */
  function AdmitTimes(calls: seq<Call>, answers: seq<Option<int>>, k: Key): seq<real>
    requires |answers| == |calls|
  {
    if calls == [] then []
    else (if calls[0].Attempt? && k in Keys(calls[0].user, calls[0].ip) && answers[0].None? then [calls[0].now] else [])
         + AdmitTimes(calls[1..], answers[1..], k)
  }

  function Successes(calls: seq<Call>, k: Key): nat {
    if calls == [] then 0 else (if Forgives(calls[0], k) then 1 else 0) + Successes(calls[1..], k)
  }

  lemma HistoryAt(c: Limits, h: Log, x: Call, k: Key)
    ensures x.Attempt? && k in Keys(x.user, x.ip) && HistoryReply(c, h, x).None? ==> Stored(HistoryAfter(c, h, x), k) == Stored(h, k) + [x.now]
    ensures x.Attempt? && !(k in Keys(x.user, x.ip) && HistoryReply(c, h, x).None?) ==> Stored(HistoryAfter(c, h, x), k) == Stored(h, k)
    ensures x.Succeeded? ==> Stored(HistoryAfter(c, h, x), k) == ForgivenSeq(k, x.user, x.ip, Stored(h, k))
  {}

  /** With no success under the key, the history grows by exactly what was admitted. */
  lemma {:induction false} HistoryGrows(c: Limits, h: Log, calls: seq<Call>, k: Key)
    requires Successes(calls, k) == 0
    ensures Stored(HistoryRun(c, h, calls), k) == Stored(h, k) + AdmitTimes(calls, HistoryAnswers(c, h, calls), k)
    decreases |calls|
  {
    if calls != [] {
      HistoryAt(c, h, calls[0], k);
      HistoryGrows(c, HistoryAfter(c, h, calls[0]), calls[1..], k);
    }
  }

  lemma StretchAgrees(c: Limits, clock: real, before: seq<Call>, stretch: seq<Call>)
    requires Monotone(before, clock) && Monotone(stretch, RunClock(before, clock))
    ensures Tidy(c, HistoryRun(c, map[], before), RunClock(before, clock))
    ensures Answers(c, Run(c, INITIAL, before), stretch) == HistoryAnswers(c, HistoryRun(c, map[], before), stretch)
  {
    RunLinked(c, INITIAL, map[], clock, before);
    RunAgrees(c, Run(c, INITIAL, before), HistoryRun(c, map[], before), RunClock(before, clock), stretch);
  }

  /** However the limiter came to its state: in a stretch with no success under a key, the
      attempts admitted inside one window are at most the key's slots. */
  lemma WindowBound(c: Limits, clock: real, before: seq<Call>, stretch: seq<Call>, k: Key, i: nat, j: nat)
    requires Monotone(before, clock) && Monotone(stretch, RunClock(before, clock)) && Successes(stretch, k) == 0
    requires var times := AdmitTimes(stretch, Answers(c, Run(c, INITIAL, before), stretch), k);
      i <= j < |times| && times[j] - times[i] < c.window
    ensures j - i + 1 <= Slots(c, k)
  {
    StretchAgrees(c, clock, before, stretch);
    HistoryWindow(c, HistoryRun(c, map[], before), RunClock(before, clock), stretch, k, i, j);
  }

  lemma HistoryWindow(c: Limits, h: Log, clock: real, calls: seq<Call>, k: Key, i: nat, j: nat)
    requires Tidy(c, h, clock) && Monotone(calls, clock) && Successes(calls, k) == 0
    requires var times := AdmitTimes(calls, HistoryAnswers(c, h, calls), k); i <= j < |times| && times[j] - times[i] < c.window
    ensures j - i + 1 <= Slots(c, k)
  {
    HistoryTidy(c, h, clock, calls);
    HistoryGrows(c, h, calls, k);
    assert TidyAt(c, HistoryRun(c, h, calls), RunClock(calls, clock), k);
    SpacedTimes(Stored(h, k), AdmitTimes(calls, HistoryAnswers(c, h, calls), k), Slots(c, k), c.window, i, j);
  }

  lemma SpacedTimes(h: seq<real>, times: seq<real>, slots: nat, window: real, i: nat, j: nat)
    requires Spaced(h + times, slots, window) && i <= j < |times| && times[j] - times[i] < window
    ensures j - i + 1 <= slots
  {
    assert (h + times)[|h| + i] == times[i] && (h + times)[|h| + j] == times[j];
  }

  predicate Within(calls: seq<Call>, from: real, to: real) {
    forall i :: 0 <= i < |calls| && calls[i].Attempt? ==> from < calls[i].now <= to
  }

  lemma {:induction false} CountInWindow(c: Limits, h: Log, calls: seq<Call>, k: Key, t: real)
    requires k.Ip? && Within(calls, t - c.window, t)
    requires |InWindow(Stored(h, k), t - c.window)| <= Slots(c, k)
    ensures |AdmitTimes(calls, HistoryAnswers(c, h, calls), k)| + |InWindow(Stored(h, k), t - c.window)| <= Slots(c, k) + Successes(calls, k)
    decreases |calls|
  {
    if calls != [] {
      var h1 := HistoryAfter(c, h, calls[0]);
      CountStep(c, h, calls[0], k, t);
      CountInWindow(c, h1, calls[1..], k, t);
    }
  }

  /** One call: an admission takes one of the window's slots, a success gives at most one back. */
  lemma CountStep(c: Limits, h: Log, x: Call, k: Key, t: real)
    requires k.Ip? && (x.Attempt? ==> t - c.window < x.now <= t)
    requires |InWindow(Stored(h, k), t - c.window)| <= Slots(c, k)
    ensures var a, b := |InWindow(Stored(h, k), t - c.window)|, |InWindow(Stored(HistoryAfter(c, h, x), k), t - c.window)|;
      && b <= Slots(c, k)
      && b >= a - (if Forgives(x, k) then 1 else 0)
      && (x.Attempt? && k in Keys(x.user, x.ip) && HistoryReply(c, h, x).None? ==> b == a + 1)
  {
    HistoryAt(c, h, x, k);
    var hk := Stored(h, k);
    if x.Attempt? && k in Keys(x.user, x.ip) && HistoryReply(c, h, x).None? {
      AdmittedHasSlot(c, h, x, k);
      InWindowShrinks(hk, x.now - c.window, t - c.window);
      assert (hk + [x.now])[..|hk|] == hk;
    }
  }

  /** Whatever succeeds in between: the attempts admitted for an address inside one window are
      at most its slots and the successes that gave one back. */
  lemma AddressBound(c: Limits, clock: real, before: seq<Call>, stretch: seq<Call>, a: int, t: real)
    requires Monotone(before, clock) && Monotone(stretch, RunClock(before, clock))
    requires Within(stretch, t - c.window, t) && RunClock(before, clock) <= t
    ensures |AdmitTimes(stretch, Answers(c, Run(c, INITIAL, before), stretch), Ip(a))| <= Slots(c, Ip(a)) + Successes(stretch, Ip(a))
  {
    StretchAgrees(c, clock, before, stretch);
    HistoryAddress(c, HistoryRun(c, map[], before), RunClock(before, clock), stretch, Ip(a), t);
  }

  lemma HistoryAddress(c: Limits, h: Log, clock: real, calls: seq<Call>, k: Key, t: real)
    requires Tidy(c, h, clock) && clock <= t && k.Ip? && Within(calls, t - c.window, t)
    ensures |AdmitTimes(calls, HistoryAnswers(c, h, calls), k)| <= Slots(c, k) + Successes(calls, k)
  {
    assert TidyAt(c, h, clock, k);
    SpacedCount(Stored(h, k), Slots(c, k), c.window, t);
    CountInWindow(c, h, calls, k, t);
  }

  /** A sorted history holds at most its slots after `t - window`. */
  lemma SpacedCount(h: seq<real>, slots: nat, window: real, t: real)
    requires Sorted(h) && Spaced(h, slots, window) && slots >= 1 && forall i :: 0 <= i < |h| ==> h[i] <= t
    ensures |InWindow(h, t - window)| <= slots
  {
    ExpireIsInWindow(h, t - window);
    ExpireDrops(h, t - window);
    var e := Expire(h, t - window);
    if |e| > 0 {
      assert e[0] == h[|h| - |e|];
      assert h[|h| - 1] - h[|h| - |e|] < window;
    }
  }

  lemma FreeKeysAdmit(c: Limits, h: Log, user: int, ip: int, now: real)
    requires |InWindow(Stored(h, User(user)), now - c.window)| < c.user && |InWindow(Stored(h, Ip(ip)), now - c.window)| < c.ip
    ensures HistoryReply(c, h, Attempt(user, Some(ip), now)) == None
    ensures HistoryAfter(c, h, Attempt(user, Some(ip), now)) == Appended(h, {User(user), Ip(ip)}, now)
  {}

  const EXAMPLE: Limits := Limits(5, 2, 900.0)
  const H1: Log := map[User(1) := [0.0], Ip(7) := [0.0]]
  const H2: Log := map[User(1) := [0.0], Ip(7) := [0.0, 10.0], User(2) := [10.0]]
  const H3: Log := map[Ip(7) := [0.0], User(2) := [10.0]]
  const H4: Log := map[Ip(7) := [0.0, 900.0], User(2) := [10.0], User(3) := [900.0]]
  const CALLS: seq<Call> :=
    [Attempt(1, Some(7), 0.0), Attempt(2, Some(7), 10.0), Succeeded(1, Some(7)), Attempt(3, Some(7), 900.0), Attempt(4, Some(7), 901.0)]

  lemma FirstAdmitted()
    ensures HistoryReply(EXAMPLE, map[], CALLS[0]) == None && HistoryAfter(EXAMPLE, map[], CALLS[0]) == H1
  {
    FreeKeysAdmit(EXAMPLE, map[], 1, 7, 0.0);
    assert [] + [0.0] == [0.0];
    assert Appended(map[], {User(1), Ip(7)}, 0.0) == H1;
  }

  lemma SecondAdmitted()
    ensures HistoryReply(EXAMPLE, H1, CALLS[1]) == None && HistoryAfter(EXAMPLE, H1, CALLS[1]) == H2
  {
    FreeKeysAdmit(EXAMPLE, H1, 2, 7, 10.0);
    assert [] + [10.0] == [10.0] && [0.0] + [10.0] == [0.0, 10.0];
    assert Appended(H1, {User(2), Ip(7)}, 10.0) == H2;
  }

  lemma FirstSucceeds()
    ensures HistoryReply(EXAMPLE, H2, CALLS[2]) == None && HistoryAfter(EXAMPLE, H2, CALLS[2]) == H3
  {
    assert [0.0, 10.0][..1] == [0.0];
  }

  lemma ThirdAdmitted()
    ensures HistoryReply(EXAMPLE, H3, CALLS[3]) == None && HistoryAfter(EXAMPLE, H3, CALLS[3]) == H4
  {
    FreeKeysAdmit(EXAMPLE, H3, 3, 7, 900.0);
    assert [] + [900.0] == [900.0] && [0.0] + [900.0] == [0.0, 900.0];
    assert Appended(H3, {User(3), Ip(7)}, 900.0) == H4;
  }

  lemma FourthAdmitted()
    ensures HistoryReply(EXAMPLE, H4, CALLS[4]) == None
  {}

  /** Counting only the attempts that went on to fail, the bound does not hold: a success
      takes back the newest entry of its address, here another user's. The second, third and
      fourth attempts all fail, 891 seconds apart, under an address limit of two. */
  lemma FailedAttemptsCanExceedLimit()
    ensures CALLS[4].now - CALLS[1].now < EXAMPLE.window && EXAMPLE.ip == 2
    ensures Monotone(CALLS, 0.0) && Answers(EXAMPLE, INITIAL, CALLS) == [None, None, None, None, None]
  {
    LimiterRefinesHistory(EXAMPLE, 0.0, CALLS);
    FirstAdmitted();
    SecondAdmitted();
    FirstSucceeds();
    ThirdAdmitted();
    FourthAdmitted();
    FiveAnswers(EXAMPLE, map[], H1, H2, H3, H4, CALLS);
  }

  lemma FiveAnswers(c: Limits, h0: Log, h1: Log, h2: Log, h3: Log, h4: Log, calls: seq<Call>)
    requires |calls| == 5
    requires HistoryAfter(c, h0, calls[0]) == h1 && HistoryAfter(c, h1, calls[1]) == h2
    requires HistoryAfter(c, h2, calls[2]) == h3 && HistoryAfter(c, h3, calls[3]) == h4
    requires HistoryReply(c, h0, calls[0]) == HistoryReply(c, h1, calls[1]) == HistoryReply(c, h2, calls[2]) == None
    requires HistoryReply(c, h3, calls[3]) == HistoryReply(c, h4, calls[4]) == None
    ensures HistoryAnswers(c, h0, calls) == [None, None, None, None, None]
  {
    var h5 := HistoryAfter(c, h4, calls[4]);
    assert HistoryAnswers(c, h5, calls[1..][1..][1..][1..][1..]) == [];
    assert HistoryAnswers(c, h4, calls[1..][1..][1..][1..]) == [None];
    assert HistoryAnswers(c, h3, calls[1..][1..][1..]) == [None, None];
    assert HistoryAnswers(c, h2, calls[1..][1..]) == [None, None, None];
    assert HistoryAnswers(c, h1, calls[1..]) == [None, None, None, None];
  }

  /** A success gives back its own attempt's entry exactly when that entry is the newest. */
  lemma SuccessReturnsOwnSlotIff(h: seq<real>, own: nat)
    requires Sorted(h) && own < |h|
    ensures Popped(h) == h[..own] + h[own + 1..] <==> h[|h| - 1] == h[own]
  {
    var rest := h[..own] + h[own + 1..];
    forall i | own <= i < |h| - 1 ensures rest[i] == h[i + 1] && Popped(h)[i] == h[i] {}
    if Popped(h) == rest {
      AllEqualFrom(h, own);
    }
  }

  lemma {:induction false} AllEqualFrom(h: seq<real>, own: nat)
    requires own < |h| && forall i :: own <= i < |h| - 1 ==> h[i] == h[i + 1]
    ensures h[|h| - 1] == h[own]
    decreases |h| - own
  {
    if own < |h| - 1 { AllEqualFrom(h, own + 1); }
  }

  // ------------------------------------------------------------------ stored windows

  predicate Small(c: Limits, s: Log) { forall k :: k in s ==> |s[k]| <= Slots(c, k) }

  lemma PruneSmall(c: Limits, s: Log, ks: set<Key>, cutoff: real)
    requires Small(c, s)
    ensures Small(c, PruneKeys(s, ks, cutoff))
  {
    forall k | k in s ensures |Expire(s[k], cutoff)| <= Slots(c, k) { ExpireDrops(s[k], cutoff); }
  }

  lemma PrunedHasSlot(c: Limits, s: Log, ks: set<Key>, k: Key, now: real)
    requires k in ks && Wait(c, PruneKeys(s, ks, now - c.window), k, now) <= 0.0
    ensures |Stored(PruneKeys(s, ks, now - c.window), k)| < Slots(c, k)
  {
    if k in s { ExpireDrops(s[k], now - c.window); }
  }

  lemma AdmittedSmall(c: Limits, s: Log, ks: set<Key>, now: real, sweep: bool)
    requires Small(c, s) && forall k :: k in ks ==> |Stored(s, k)| < Slots(c, k)
    ensures Small(c, AdmittedLog(s, ks, now, c.window, sweep))
  {
    var s1 := Appended(s, ks, now);
    assert Small(c, s1);
    PruneSmall(c, s1, s1.Keys, now - c.window);
  }

  lemma AttemptSmall(c: Limits, st: State, user: int, ip: Option<int>, now: real)
    requires Small(c, st.failures)
    ensures Small(c, Reserved(c, st, user, ip, now).failures)
  {
    var p := st.(failures := PruneKeys(st.failures, Keys(user, ip), now - c.window));
    AttemptSmallLog(c, st.failures, user, ip, now, Sweeps(p, Keys(user, ip), now));
  }

  lemma AttemptSmallLog(c: Limits, s: Log, user: int, ip: Option<int>, now: real, sweep: bool)
    requires Small(c, s)
    ensures var p := PruneKeys(s, Keys(user, ip), now - c.window);
      Small(c, if Refuses(c, s, user, ip, now) then p else AdmittedLog(p, Keys(user, ip), now, c.window, sweep))
  {
    PruneSmall(c, s, Keys(user, ip), now - c.window);
    if !Refuses(c, s, user, ip, now) {
      AnsweredHasSlots(c, s, user, ip, now);
      AdmittedSmall(c, PruneKeys(s, Keys(user, ip), now - c.window), Keys(user, ip), now, sweep);
    }
  }

  lemma AnsweredHasSlots(c: Limits, s: Log, user: int, ip: Option<int>, now: real)
    requires !Refuses(c, s, user, ip, now)
    ensures forall k :: k in Keys(user, ip) ==> |Stored(PruneKeys(s, Keys(user, ip), now - c.window), k)| < Slots(c, k)
  {
    PrunedHasSlot(c, s, Keys(user, ip), User(user), now);
    if ip.Some? { PrunedHasSlot(c, s, Keys(user, ip), Ip(ip.value), now); }
  }

  lemma ForgivenSmall(c: Limits, s: Log, user: int, ip: Option<int>)
    requires Small(c, s)
    ensures Small(c, Forgiven(s, user, ip))
  {}

  lemma StepSmall(c: Limits, st: State, x: Call)
    requires Small(c, st.failures)
    ensures Small(c, After(c, st, x).failures)
  {
    match x
    case Succeeded(user, ip) => ForgivenSmall(c, st.failures, user, ip);
    case Attempt(user, ip, now) => AttemptSmall(c, st, user, ip, now);
  }

  /** Every state the limiter reaches satisfies what its exact refusals rest on. */
  lemma {:induction false} RunIsBounded(c: Limits, st: State, h: Log, clock: real, calls: seq<Call>)
    requires Linked(c, st.failures, h, clock) && Small(c, st.failures) && Monotone(calls, clock)
    ensures Bounded(c, Run(c, st, calls).failures)
    decreases |calls|
  {
    if calls == [] {
      forall k | k in st.failures ensures Sorted(st.failures[k]) { assert LinkedAt(c, st.failures, h, clock, k); }
    } else {
      StepAgrees(c, st, h, clock, calls[0]);
      StepSmall(c, st, calls[0]);
      RunIsBounded(c, After(c, st, calls[0]), HistoryAfter(c, h, calls[0]), ClockAfter(calls[0], clock), calls[1..]);
    }
  }

  // ------------------------------------------------------------------ the sweeps

  /** The sweeps have visited at most twice the keys ever inserted, and the table is smaller
      than the size at which the next one runs. */
  predicate Cheap(st: State) {
    && |st.failures| < st.nextSweep
    && st.visited + 2 * |st.failures| <= 2 * st.inserted + st.nextSweep
    && st.visited <= 2 * st.inserted <= 4 * st.admitted
  }

  lemma PruneSize(s: Log, ks: set<Key>, cutoff: real)
    ensures |PruneKeys(s, ks, cutoff)| <= |s|
  {
    var p := PruneKeys(s, ks, cutoff);
    assert p.Keys <= s.Keys;
    Fewer(p.Keys, s.Keys);
    assert |p| == |p.Keys| && |s| == |s.Keys|;
  }

  lemma AppendSize(s: Log, ks: set<Key>, now: real)
    ensures |Appended(s, ks, now)| == |s| + NewKeys(ks, s)
  {
    var a := Appended(s, ks, now);
    assert a.Keys == s.Keys + Untracked(ks, s) && s.Keys !! Untracked(ks, s);
    assert |a| == |a.Keys| && |s| == |s.Keys|;
  }

  lemma AtMostTwo(user: int, ip: Option<int>, s: Log)
    ensures NewKeys(Keys(user, ip), s) <= 2
  {
    Fewer(Untracked(Keys(user, ip), s), Keys(user, ip));
  }

  lemma AdmittedCheap(c: Limits, st: State, user: int, ip: Option<int>, now: real)
    requires Cheap(st)
    ensures Cheap(Admitted(c, st, Keys(user, ip), now))
  {
    var ks := Keys(user, ip);
    AppendSize(st.failures, ks, now);
    AtMostTwo(user, ip, st.failures);
    var s1 := Appended(st.failures, ks, now);
    PruneSize(s1, s1.Keys, now - c.window);
  }

  lemma ForgivenSize(s: Log, user: int, ip: Option<int>)
    ensures |Forgiven(s, user, ip)| <= |s|
  {}

  lemma StepCheap(c: Limits, st: State, x: Call)
    requires Cheap(st)
    ensures Cheap(After(c, st, x))
  {
    match x
    case Succeeded(user, ip) => ForgivenSize(st.failures, user, ip);
    case Attempt(user, ip, now) => AttemptCheap(c, st, user, ip, now);
  }

  lemma AttemptCheap(c: Limits, st: State, user: int, ip: Option<int>, now: real)
    requires Cheap(st)
    ensures Cheap(Reserved(c, st, user, ip, now))
  {
    PruneSize(st.failures, Keys(user, ip), now - c.window);
    var pruned := st.(failures := PruneKeys(st.failures, Keys(user, ip), now - c.window));
    assert Cheap(pruned);
    if !Refuses(c, st.failures, user, ip, now) {
      AdmittedCheap(c, pruned, user, ip, now);
      assert Reserved(c, st, user, ip, now) == Admitted(c, pruned, Keys(user, ip), now);
    }
  }

  /** Over any sequence of calls, clock running backwards or not. */
  lemma {:induction false} SweepsAreAmortised(c: Limits, st: State, calls: seq<Call>)
    requires Cheap(st)
    ensures Cheap(Run(c, st, calls))
    decreases |calls|
  {
    if calls != [] {
      StepCheap(c, st, calls[0]);
      SweepsAreAmortised(c, After(c, st, calls[0]), calls[1..]);
    }
  }
}
