/** The limiter against a history that never forgets: same answers, exact refusals, a bound on
    every window, and an amortised bound on the sweeps. */
module LoginHistory {
  import opened Basics
  import opened LoginLimiter

  // ------------------------------------------------------------------ the history

  /** The entries after `cutoff`, wherever they stand. */
  function InWindow(h: seq<real>, cutoff: real): seq<real> {
    if h == [] then []
    else
      var n := |h| - 1;
      InWindow(h[..n], cutoff) + (if h[n] > cutoff then [h[n]] else [])
  }

  function HistoryWait(c: Limits, h: Log, k: Key, now: real): real {
    WaitOf(InWindow(Stored(h, k), now - c.window), LimitFor(c, k), c.window, now)
  }

  function HistoryWorst(c: Limits, h: Log, user: int, ip: Option<int>, now: real): real {
    Max(Max(0.0, HistoryWait(c, h, User(user), now)), if ip.Some? then HistoryWait(c, h, Ip(ip.value), now) else 0.0)
  }

  function HistoryReply(c: Limits, h: Log, x: Call): Option<int> {
    if x.Attempt? then
      var worst := HistoryWorst(c, h, x.user, x.ip, x.now);
      if worst > 0.0 then Some(RetryAfter(worst)) else None
    else None
  }

  function HistoryForgiven(h: Log, user: int, ip: Option<int>): Log {
    var h1 := h - {User(user)};
    if ip.Some? && Stored(h1, Ip(ip.value)) != []
    then h1[Ip(ip.value) := Stored(h1, Ip(ip.value))[..|Stored(h1, Ip(ip.value))| - 1]] else h1
  }

  /** Every admitted attempt on record, pruned by nothing and swept by nothing. */
  function HistoryAfter(c: Limits, h: Log, x: Call): Log {
    match x
    case Attempt(user, ip, now) => if HistoryReply(c, h, x).Some? then h else Appended(h, Keys(user, ip), now)
    case Succeeded(user, ip) => HistoryForgiven(h, user, ip)
  }

  // ------------------------------------------------------------------ the link

  predicate Sorted(h: seq<real>) { forall i, j :: 0 <= i < j < |h| ==> h[i] <= h[j] }

  /** What is stored is the history without some expired head. */
  predicate Tail(a: seq<real>, b: seq<real>, cutoff: real) {
    |a| <= |b| && a == b[|b| - |a|..] && forall i :: 0 <= i < |b| - |a| ==> b[i] <= cutoff
  }

  /** One key: a tail of a history that is in order and not ahead of the clock. */
  predicate SeqLinked(a: seq<real>, b: seq<real>, clock: real, window: real) {
    Tail(a, b, clock - window) && Sorted(b) && forall i :: 0 <= i < |b| ==> b[i] <= clock
  }

  predicate NoEmpty(s: Log) { forall k :: k in s ==> s[k] != [] }

  predicate LinkedAt(c: Limits, s: Log, h: Log, clock: real, k: Key) {
    SeqLinked(Stored(s, k), Stored(h, k), clock, c.window)
  }

  /** No key stores an empty window; every stored window is a tail of its history. */
  ghost predicate Linked(c: Limits, s: Log, h: Log, clock: real) {
    NoEmpty(s) && forall k :: LinkedAt(c, s, h, clock, k)
  }

  lemma {:induction false} ExpireDrops(h: seq<real>, cutoff: real)
    ensures Tail(Expire(h, cutoff), h, cutoff)
    ensures Expire(h, cutoff) != [] ==> Expire(h, cutoff)[0] > cutoff
  {
    if h != [] && h[0] <= cutoff {
      ExpireDrops(h[1..], cutoff);
      var e := Expire(h[1..], cutoff);
      assert e == h[1..][|h[1..]| - |e|..] == h[|h| - |e|..];
      forall i | 0 <= i < |h| - |e| ensures h[i] <= cutoff {
        if i > 0 { assert h[i] == h[1..][i - 1]; }
      }
    }
  }

  /** A tail is what expiry leaves, when its head has not expired. */
  lemma {:induction false} TailIsExpire(a: seq<real>, b: seq<real>, cutoff: real)
    requires Tail(a, b, cutoff) && (a != [] ==> a[0] > cutoff)
    ensures a == Expire(b, cutoff)
    decreases |b|
  {
    if b != [] && |a| < |b| {
      assert b[1..][|b| - 1 - |a|..] == a;
      TailIsExpire(a, b[1..], cutoff);
    } else if b != [] {
      assert a == b;
    }
  }

  lemma TailExpires(a: seq<real>, b: seq<real>, cutoff: real)
    requires Tail(a, b, cutoff)
    ensures Expire(a, cutoff) == Expire(b, cutoff)
  {}

  /** On a sorted history, dropping the expired head leaves exactly what is in the window. */
  lemma {:induction false} ExpireIsInWindow(h: seq<real>, cutoff: real)
    requires Sorted(h)
    ensures Expire(h, cutoff) == InWindow(h, cutoff)
    decreases |h|
  {
    if h != [] {
      var n := |h| - 1;
      ExpireIsInWindow(h[..n], cutoff);
      ExpireDrops(h[..n], cutoff);
      assert h == h[..n] + [h[n]];
      OneMore(h[..n], Expire(h[..n], cutoff), h[n], cutoff);
    }
  }

  /** A later entry stays if it is inside the window; if it is not, nothing earlier was. */
  lemma OneMore(b: seq<real>, e: seq<real>, x: real, cutoff: real)
    requires Tail(e, b, cutoff) && (e != [] ==> e[0] > cutoff) && Sorted(b + [x])
    ensures Expire(b + [x], cutoff) == e + (if x > cutoff then [x] else [])
  {
    var h := b + [x];
    forall i | 0 <= i < |b| ensures h[i] == b[i] && b[i] <= x { assert h[i] <= h[|b|]; }
    if x > cutoff {
      assert (e + [x]) == h[|h| - |e + [x]|..];
      TailIsExpire(e + [x], h, cutoff);
    } else {
      assert |e| == 0;
      TailIsExpire([], h, cutoff);
    }
  }

  lemma SeqExpires(a: seq<real>, b: seq<real>, clock: real, window: real, now: real)
    requires SeqLinked(a, b, clock, window) && now >= clock
    ensures SeqLinked(Expire(a, now - window), b, now, window) && SeqLinked(a, b, now, window)
    ensures Expire(a, now - window) == InWindow(b, now - window)
  {
    TailExpires(a, b, now - window);
    ExpireDrops(b, now - window);
    ExpireIsInWindow(b, now - window);
  }

  lemma SeqAppends(a: seq<real>, b: seq<real>, now: real, window: real)
    requires SeqLinked(a, b, now, window)
    ensures SeqLinked(a + [now], b + [now], now, window)
  {}

  function Popped(h: seq<real>): seq<real> { if h == [] then [] else h[..|h| - 1] }

  lemma SeqPops(a: seq<real>, b: seq<real>, clock: real, window: real)
    requires SeqLinked(a, b, clock, window)
    ensures SeqLinked(Popped(a), Popped(b), clock, window)
  {}

  lemma PrunedAt(s: Log, ks: set<Key>, cutoff: real, k: Key)
    ensures NoEmpty(s) ==> NoEmpty(PruneKeys(s, ks, cutoff))
    ensures Stored(PruneKeys(s, ks, cutoff), k) == if k in ks then Expire(Stored(s, k), cutoff) else Stored(s, k)
  {}

  lemma WaitsAgree(c: Limits, s: Log, h: Log, clock: real, p: Log, k: Key, now: real)
    requires LinkedAt(c, s, h, clock, k) && now >= clock && Stored(p, k) == Expire(Stored(s, k), now - c.window)
    ensures Wait(c, p, k, now) == HistoryWait(c, h, k, now)
  {
    SeqExpires(Stored(s, k), Stored(h, k), clock, c.window, now);
  }

  lemma PruneLinked(c: Limits, s: Log, h: Log, clock: real, ks: set<Key>, now: real)
    requires Linked(c, s, h, clock) && now >= clock
    ensures Linked(c, PruneKeys(s, ks, now - c.window), h, now)
  {
    var s' := PruneKeys(s, ks, now - c.window);
    forall k ensures LinkedAt(c, s', h, now, k) {
      assert LinkedAt(c, s, h, clock, k);
      PrunedAt(s, ks, now - c.window, k);
      SeqExpires(Stored(s, k), Stored(h, k), clock, c.window, now);
    }
    PrunedAt(s, ks, now - c.window, User(0));
  }

  lemma AppendedAt(s: Log, ks: set<Key>, now: real, k: Key)
    ensures Stored(Appended(s, ks, now), k) == if k in ks then Stored(s, k) + [now] else Stored(s, k)
    ensures NoEmpty(s) ==> NoEmpty(Appended(s, ks, now))
  {}

  lemma AppendLinked(c: Limits, s: Log, h: Log, ks: set<Key>, now: real)
    requires Linked(c, s, h, now)
    ensures Linked(c, Appended(s, ks, now), Appended(h, ks, now), now)
  {
    forall k ensures LinkedAt(c, Appended(s, ks, now), Appended(h, ks, now), now, k) {
      assert LinkedAt(c, s, h, now, k);
      AppendedAt(s, ks, now, k);
      AppendedAt(h, ks, now, k);
      SeqAppends(Stored(s, k), Stored(h, k), now, c.window);
    }
    AppendedAt(s, ks, now, User(0));
  }

  /** What one success leaves of a key's window or history. */
  function ForgivenSeq(k: Key, user: int, ip: Option<int>, h: seq<real>): seq<real> {
    if k == User(user) then [] else if ip.Some? && k == Ip(ip.value) then Popped(h) else h
  }

  lemma ForgivenAt(c: Limits, s: Log, h: Log, user: int, ip: Option<int>, k: Key)
    ensures Stored(Forgiven(s, user, ip), k) == ForgivenSeq(k, user, ip, Stored(s, k))
    ensures Stored(HistoryForgiven(h, user, ip), k) == ForgivenSeq(k, user, ip, Stored(h, k))
    ensures NoEmpty(s) ==> NoEmpty(Forgiven(s, user, ip))
  {}

  lemma SuccessLinked(c: Limits, s: Log, h: Log, clock: real, user: int, ip: Option<int>)
    requires Linked(c, s, h, clock)
    ensures Linked(c, Forgiven(s, user, ip), HistoryForgiven(h, user, ip), clock)
  {
    forall k ensures LinkedAt(c, Forgiven(s, user, ip), HistoryForgiven(h, user, ip), clock, k) {
      assert LinkedAt(c, s, h, clock, k);
      ForgivenAt(c, s, h, user, ip, k);
      SeqPops(Stored(s, k), Stored(h, k), clock, c.window);
    }
    ForgivenAt(c, s, h, user, ip, User(0));
  }

  lemma WorstAgrees(c: Limits, s: Log, h: Log, clock: real, user: int, ip: Option<int>, now: real)
    requires Linked(c, s, h, clock) && now >= clock
    ensures Worst(c, PruneKeys(s, Keys(user, ip), now - c.window), user, ip, now) == HistoryWorst(c, h, user, ip, now)
  {
    var p, cutoff := PruneKeys(s, Keys(user, ip), now - c.window), now - c.window;
    assert LinkedAt(c, s, h, clock, User(user));
    PrunedAt(s, Keys(user, ip), cutoff, User(user));
    WaitsAgree(c, s, h, clock, p, User(user), now);
    if ip.Some? {
      assert LinkedAt(c, s, h, clock, Ip(ip.value));
      PrunedAt(s, Keys(user, ip), cutoff, Ip(ip.value));
      WaitsAgree(c, s, h, clock, p, Ip(ip.value), now);
    }
  }

  /** One call answers as the history does, and stays linked to it. */
  lemma StepAgrees(c: Limits, st: State, h: Log, clock: real, x: Call)
    requires Linked(c, st.failures, h, clock) && (x.Attempt? ==> x.now >= clock)
    ensures Reply(c, st.failures, x) == HistoryReply(c, h, x)
    ensures Linked(c, After(c, st, x).failures, HistoryAfter(c, h, x), if x.Attempt? then x.now else clock)
  {
    match x
    case Succeeded(user, ip) => SuccessLinked(c, st.failures, h, clock, user, ip);
    case Attempt(user, ip, now) =>
      WorstAgrees(c, st.failures, h, clock, user, ip, now);
      AttemptLinked(c, st, h, clock, user, ip, now);
  }

  lemma AttemptLinked(c: Limits, st: State, h: Log, clock: real, user: int, ip: Option<int>, now: real)
    requires Linked(c, st.failures, h, clock) && now >= clock
    ensures Linked(c, Reserved(c, st, user, ip, now).failures,
                   if Refuses(c, st.failures, user, ip, now) then h else Appended(h, Keys(user, ip), now), now)
  {
    var p := st.(failures := PruneKeys(st.failures, Keys(user, ip), now - c.window));
    PruneLinked(c, st.failures, h, clock, Keys(user, ip), now);
    ReservedIs(c, st, p, user, ip, now);
    if !Refuses(c, st.failures, user, ip, now) { AdmittedLinked(c, p, h, Keys(user, ip), now); }
  }

  /** A refusal changes nothing but the expired entries it dropped. */
  lemma ReservedIs(c: Limits, st: State, p: State, user: int, ip: Option<int>, now: real)
    requires p == st.(failures := PruneKeys(st.failures, Keys(user, ip), now - c.window))
    ensures Reserved(c, st, user, ip, now) == if Refuses(c, st.failures, user, ip, now) then p else Admitted(c, p, Keys(user, ip), now)
  {}

  lemma AdmittedLinked(c: Limits, st: State, h: Log, ks: set<Key>, now: real)
    requires Linked(c, st.failures, h, now)
    ensures Linked(c, Admitted(c, st, ks, now).failures, Appended(h, ks, now), now)
  {
    AdmissionLinked(c, st.failures, h, ks, now, Sweeps(st, ks, now));
  }

  lemma AdmissionLinked(c: Limits, s: Log, h: Log, ks: set<Key>, now: real, sweep: bool)
    requires Linked(c, s, h, now)
    ensures Linked(c, AdmittedLog(s, ks, now, c.window, sweep), Appended(h, ks, now), now)
  {
    AppendLinked(c, s, h, ks, now);
    var s1 := Appended(s, ks, now);
    PruneLinked(c, s1, Appended(h, ks, now), now, s1.Keys, now);
  }

  // ------------------------------------------------------------------ any run

  predicate Monotone(calls: seq<Call>, clock: real) {
    calls == [] || ((calls[0].Attempt? ==> calls[0].now >= clock)
                    && Monotone(calls[1..], if calls[0].Attempt? then calls[0].now else clock))
  }

  function Run(c: Limits, st: State, calls: seq<Call>): State
    decreases |calls|
  {
    if calls == [] then st else Run(c, After(c, st, calls[0]), calls[1..])
  }

  function Answers(c: Limits, st: State, calls: seq<Call>): (answers: seq<Option<int>>)
    ensures |answers| == |calls|
    decreases |calls|
  {
    if calls == [] then [] else [Reply(c, st.failures, calls[0])] + Answers(c, After(c, st, calls[0]), calls[1..])
  }

  function HistoryRun(c: Limits, h: Log, calls: seq<Call>): Log
    decreases |calls|
  {
    if calls == [] then h else HistoryRun(c, HistoryAfter(c, h, calls[0]), calls[1..])
  }

  function HistoryAnswers(c: Limits, h: Log, calls: seq<Call>): (answers: seq<Option<int>>)
    ensures |answers| == |calls|
    decreases |calls|
  {
    if calls == [] then [] else [HistoryReply(c, h, calls[0])] + HistoryAnswers(c, HistoryAfter(c, h, calls[0]), calls[1..])
  }

  lemma {:induction false} RunAgrees(c: Limits, st: State, h: Log, clock: real, calls: seq<Call>)
    requires Linked(c, st.failures, h, clock) && Monotone(calls, clock)
    ensures Answers(c, st, calls) == HistoryAnswers(c, h, calls)
    decreases |calls|
  {
    if calls != [] {
      StepAgrees(c, st, h, clock, calls[0]);
      RunAgrees(c, After(c, st, calls[0]), HistoryAfter(c, h, calls[0]), if calls[0].Attempt? then calls[0].now else clock, calls[1..]);
    }
  }

  /** Neither pruning nor sweeping ever changes an answer. */
  lemma LimiterRefinesHistory(c: Limits, clock: real, calls: seq<Call>)
    requires Monotone(calls, clock)
    ensures Answers(c, INITIAL, calls) == HistoryAnswers(c, map[], calls)
  {
    RunAgrees(c, INITIAL, map[], clock, calls);
  }

  // ------------------------------------------------------------------ refusals

  /** A limit below one admits one attempt per window all the same. */
  function Slots(c: Limits, k: Key): nat { if LimitFor(c, k) > 1 then LimitFor(c, k) else 1 }

  predicate Bounded(c: Limits, s: Log) {
    forall k :: k in s ==> 0 < |s[k]| <= Slots(c, k) && Sorted(s[k])
  }

  lemma PruneBounded(c: Limits, s: Log, ks: set<Key>, cutoff: real)
    requires Bounded(c, s)
    ensures Bounded(c, PruneKeys(s, ks, cutoff))
  {
    forall k | k in s ensures |Expire(s[k], cutoff)| <= Slots(c, k) && Sorted(Expire(s[k], cutoff)) {
      ExpireDrops(s[k], cutoff);
    }
  }

  /** Whether an attempt is refused at `t`, by one key alone. */
  lemma KeyRefuses(c: Limits, s: Log, ks: set<Key>, k: Key, t: real)
    requires Bounded(c, s) && k in ks
    ensures var w := Wait(c, PruneKeys(s, ks, t - c.window), k, t);
      (w > 0.0 <==> k in s && |s[k]| >= LimitFor(c, k) && t < s[k][0] + c.window) && w >= 0.0
    ensures var w := Wait(c, PruneKeys(s, ks, t - c.window), k, t); w > 0.0 ==> w == s[k][0] + c.window - t
  {
    if k in s {
      ExpireDrops(s[k], t - c.window);
      PrunedAt(s, ks, t - c.window, k);
      var e := Expire(s[k], t - c.window);
      if s[k][0] > t - c.window { TailIsExpire(s[k], s[k], t - c.window); }
    }
  }

  /** A refused attempt is refused again at every moment before its unrounded wait is over,
      and admitted at every moment after. */
  lemma RefusalIsExact(c: Limits, s: Log, user: int, ip: Option<int>, now: real, t: real)
    requires Bounded(c, s) && Refuses(c, s, user, ip, now) && t >= now
    ensures var after := PruneKeys(s, Keys(user, ip), now - c.window);
      Bounded(c, after) && (Refuses(c, after, user, ip, t) <==> t < now + Worst(c, after, user, ip, now))
  {
    PruneBounded(c, s, Keys(user, ip), now - c.window);
    RefusedUntil(c, s, PruneKeys(s, Keys(user, ip), now - c.window), user, ip, now, t);
  }

  lemma RetryCovers(worst: real)
    ensures RetryAfter(worst) as real >= worst && RetryAfter(worst) >= 1
  {}

  /** So it is admitted once `Retry-After` whole seconds have passed, if nothing else happens. */
  lemma RetryAfterIsEnough(c: Limits, s: Log, user: int, ip: Option<int>, now: real, wait: int)
    requires Bounded(c, s) && Answer(c, s, user, ip, now) == Some(wait)
    ensures wait >= 1 && Answer(c, PruneKeys(s, Keys(user, ip), now - c.window), user, ip, now + wait as real).None?
  {
    var worst := Worst(c, PruneKeys(s, Keys(user, ip), now - c.window), user, ip, now);
    RetryCovers(worst);
    RefusalIsExact(c, s, user, ip, now, now + wait as real);
  }

  lemma RefusedUntil(c: Limits, s: Log, after: Log, user: int, ip: Option<int>, now: real, t: real)
    requires Bounded(c, s) && t >= now
    requires after == PruneKeys(s, Keys(user, ip), now - c.window) && Worst(c, after, user, ip, now) > 0.0
    ensures Refuses(c, after, user, ip, t) <==> t < now + Worst(c, after, user, ip, now)
  {
    var ks := Keys(user, ip);
    KeyWait(c, s, ks, User(user), now, t);
    if ip.Some? { KeyWait(c, s, ks, Ip(ip.value), now, t); }
  }

  /** One key's refusal lasts exactly as long as its wait. */
  lemma KeyWait(c: Limits, s: Log, ks: set<Key>, k: Key, now: real, t: real)
    requires Bounded(c, s) && k in ks && t >= now
    ensures var s1 := PruneKeys(s, ks, now - c.window);
      Wait(c, PruneKeys(s1, ks, t - c.window), k, t) > 0.0 <==> Wait(c, s1, k, now) > 0.0 && t < now + Wait(c, s1, k, now)
  {
    var s1 := PruneKeys(s, ks, now - c.window);
    PruneBounded(c, s, ks, now - c.window);
    KeyRefuses(c, s, ks, k, now);
    KeyRefuses(c, s1, ks, k, t);
    if k in s {
      PrunedAt(s, ks, now - c.window, k);
      ExpireDrops(s[k], now - c.window);
    }
  }
}
