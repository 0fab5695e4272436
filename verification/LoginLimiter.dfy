/** The login throttle (`ui/backend/login_rate_limit.py`): a sliding window per key, pruned
    lazily and swept when the table has doubled. */
module LoginLimiter {
  import opened Basics

  /** A digest of the folded username, or a client address. */
  datatype Key = User(digest: int) | Ip(address: int)

  type Log = map<Key, seq<real>>

  datatype Limits = Limits(user: int, ip: int, window: real)

  const SWEEP_FLOOR: nat := 64

  /** `failures` and `nextSweep` are the limiter's own; the counters are what its amortised
      bound is about. */
  datatype State = State(failures: Log, nextSweep: nat, visited: nat, inserted: nat, admitted: nat)

  const INITIAL: State := State(map[], SWEEP_FLOOR, 0, 0, 0)

  function KeySeq(user: int, ip: Option<int>): seq<Key> {
    [User(user)] + (if ip.Some? then [Ip(ip.value)] else [])
  }

  function Keys(user: int, ip: Option<int>): set<Key> {
    {User(user)} + (if ip.Some? then {Ip(ip.value)} else {})
  }

  function LimitFor(c: Limits, k: Key): int { if k.User? then c.user else c.ip }

  function Stored(s: Log, k: Key): seq<real> { if k in s then s[k] else [] }

  // ------------------------------------------------------------------ the steps

  /** `while window and window[0] <= cutoff: window.popleft()` */
  function Expire(h: seq<real>, cutoff: real): seq<real> {
    if h != [] && h[0] <= cutoff then Expire(h[1..], cutoff) else h
  }

  function PruneKeys(s: Log, ks: set<Key>, cutoff: real): Log {
    map k | k in s && (k in ks ==> Expire(s[k], cutoff) != []) :: if k in ks then Expire(s[k], cutoff) else s[k]
  }

  function WaitOf(h: seq<real>, limit: int, window: real, now: real): real {
    if h != [] && |h| >= limit then h[0] + window - now else 0.0
  }

  /** How long this key makes the attempt wait; 0.0 when it does not. */
  function Wait(c: Limits, s: Log, k: Key, now: real): real {
    WaitOf(Stored(s, k), LimitFor(c, k), c.window, now)
  }

  function Max(a: real, b: real): real { if a >= b then a else b }

  function Worst(c: Limits, s: Log, user: int, ip: Option<int>, now: real): real {
    Max(Max(0.0, Wait(c, s, User(user), now)), if ip.Some? then Wait(c, s, Ip(ip.value), now) else 0.0)
  }

  function Ceil(x: real): int { -((-x).Floor) }

  function RetryAfter(worst: real): int { if Ceil(worst) > 1 then Ceil(worst) else 1 }

  function Appended(s: Log, ks: set<Key>, now: real): Log {
    map k | k in s.Keys + ks :: if k in ks then Stored(s, k) + [now] else s[k]
  }

  predicate Refuses(c: Limits, s: Log, user: int, ip: Option<int>, now: real) {
    Worst(c, PruneKeys(s, Keys(user, ip), now - c.window), user, ip, now) > 0.0
  }

  /** What an attempt is told, from what the keys hold before it. */
  function Answer(c: Limits, s: Log, user: int, ip: Option<int>, now: real): Option<int> {
    if Refuses(c, s, user, ip, now) then Some(RetryAfter(Worst(c, PruneKeys(s, Keys(user, ip), now - c.window), user, ip, now))) else None
  }

  /** The table once an attempt is counted, and swept when it has grown that far. */
  function AdmittedLog(s: Log, ks: set<Key>, now: real, window: real, sweep: bool): Log {
    var s1 := Appended(s, ks, now);
    if sweep then PruneKeys(s1, s1.Keys, now - window) else s1
  }

  function Grown(s: Log): nat { if 2 * |s| > SWEEP_FLOOR then 2 * |s| else SWEEP_FLOOR }

  function Untracked(ks: set<Key>, s: Log): set<Key> { set k | k in ks && k !in s }

  function NewKeys(ks: set<Key>, s: Log): nat { |Untracked(ks, s)| }

  predicate Sweeps(st: State, ks: set<Key>, now: real) { |Appended(st.failures, ks, now)| >= st.nextSweep }

  /** The counters beside it: `size` keys in the table, `added` of them new. */
  function AdmittedWith(c: Limits, st: State, ks: set<Key>, now: real, sweep: bool, size: nat, added: nat): State {
    var s := AdmittedLog(st.failures, ks, now, c.window, sweep);
    State(s, if sweep then Grown(s) else st.nextSweep, if sweep then st.visited + size else st.visited, st.inserted + added, st.admitted + 1)
  }

  function Admitted(c: Limits, st: State, ks: set<Key>, now: real): State {
    AdmittedWith(c, st, ks, now, Sweeps(st, ks, now), |Appended(st.failures, ks, now)|, NewKeys(ks, st.failures))
  }

  /** The limiter after an attempt: its keys pruned, and the attempt counted if admitted. */
  function Reserved(c: Limits, st: State, user: int, ip: Option<int>, now: real): State {
    var pruned := st.(failures := PruneKeys(st.failures, Keys(user, ip), now - c.window));
    if Refuses(c, st.failures, user, ip, now) then pruned else Admitted(c, pruned, Keys(user, ip), now)
  }

  /** Forgetting the username's failures and giving back one slot of the address. */
  function Forgiven(s: Log, user: int, ip: Option<int>): Log {
    var s1 := s - {User(user)};
    if ip.Some? && Ip(ip.value) in s1 then
      var h := s1[Ip(ip.value)];
      if |h| <= 1 then s1 - {Ip(ip.value)} else s1[Ip(ip.value) := h[..|h| - 1]]
    else s1
  }

  function Success(st: State, user: int, ip: Option<int>): State {
    st.(failures := Forgiven(st.failures, user, ip))
  }

  datatype Call = Attempt(user: int, ip: Option<int>, now: real) | Succeeded(user: int, ip: Option<int>)

  function After(c: Limits, st: State, x: Call): State {
    match x
    case Attempt(user, ip, now) => Reserved(c, st, user, ip, now)
    case Succeeded(user, ip) => Success(st, user, ip)
  }

  function Reply(c: Limits, s: Log, x: Call): Option<int> {
    if x.Attempt? then Answer(c, s, x.user, x.ip, x.now) else None
  }

  // ------------------------------------------------------------------ the limiter itself

  class LoginRateLimiter {
    const limits: Limits
    var failures: Log
    var nextSweep: nat
    ghost var visited: nat
    ghost var inserted: nat
    ghost var admitted: nat

    ghost function View(): State
      reads this
    {
      State(failures, nextSweep, visited, inserted, admitted)
    }

    constructor (limits: Limits)
      ensures View() == INITIAL && this.limits == limits
    {
      this.limits := limits;
      failures, nextSweep, visited, inserted, admitted := map[], SWEEP_FLOOR, 0, 0, 0;
    }

    /** `_prune`: drop one key's expired entries, and the key when none is left. */
    method Prune(k: Key, cutoff: real)
      modifies this`failures
      ensures failures == PruneKeys(old(failures), {k}, cutoff)
    {
      if k !in failures {
        assert PruneKeys(failures, {k}, cutoff) == failures;
        return;
      }
      var h := failures[k];
      while h != [] && h[0] <= cutoff
        invariant Expire(h, cutoff) == Expire(failures[k], cutoff)
        decreases |h|
      {
        h := h[1..];
      }
      if h == [] {
        failures := failures - {k};
      } else {
        failures := failures[k := h];
      }
    }

    method TryReserve(user: int, ip: Option<int>, now: real) returns (retry: Option<int>)
      modifies this
      ensures View() == Reserved(limits, old(View()), user, ip, now)
      ensures retry == Answer(limits, old(failures), user, ip, now)
    {
      ghost var st := View();
      var worst := PruneAndMeasure(user, ip, now);
      assert View() == st.(failures := PruneKeys(st.failures, Keys(user, ip), now - limits.window));
      assert worst > 0.0 <==> Answer(limits, st.failures, user, ip, now).Some?;
      if worst > 0.0 {
        return Some(RetryAfter(worst));
      }
      Admit(user, ip, now);
      return None;
    }

    /** The admitted half: count the attempt, and sweep when the table has doubled. */
    method Admit(user: int, ip: Option<int>, now: real)
      modifies this
      ensures View() == Admitted(limits, old(View()), Keys(user, ip), now)
    {
      ghost var st := View();
      CountAttempt(user, ip, now);
      admitted := admitted + 1;
      SweepIfGrown(now);
      AdmittedIs(limits, st, Keys(user, ip), now);
    }

    method SweepIfGrown(now: real)
      modifies this
      ensures View() == Swept(old(View()), now, limits.window)
    {
      if |failures| >= nextSweep {
        Sweep(now - limits.window);
      }
    }

    /** The first loop of `reserve`: each key pruned, then measured. */
    method PruneAndMeasure(user: int, ip: Option<int>, now: real) returns (worst: real)
      modifies this`failures
      ensures failures == PruneKeys(old(failures), Keys(user, ip), now - limits.window)
      ensures worst == Worst(limits, failures, user, ip, now)
    {
      var keys := KeySeq(user, ip);
      ghost var before, done := failures, {};
      worst := 0.0;
      for i := 0 to |keys|
        invariant done == SeqSet(keys[..i])
        invariant failures == PruneKeys(before, done, now - limits.window)
        invariant worst == Measured(limits, failures, keys, i, now)
      {
        PrefixStep(user, ip, i);
        PruneMore(before, done, keys[i], now - limits.window);
        ghost var earlier := failures;
        Prune(keys[i], now - limits.window);
        done := done + {keys[i]};
        MeasuredSame(limits, earlier, failures, keys, i, now);
        worst := Max(worst, Wait(limits, failures, keys[i], now));
      }
      assert keys[..|keys|] == keys;
      WholeSet(user, ip);
      MeasuredAll(limits, failures, user, ip, now);
    }

    /** `setdefault(key, deque()).append(now)` */
    method Count(k: Key, now: real)
      modifies this`failures, this`inserted
      ensures failures == old(failures)[k := Stored(old(failures), k) + [now]]
      ensures inserted == old(inserted) + (if k in old(failures) then 0 else 1)
    {
      if k !in failures {
        inserted := inserted + 1;
      }
      failures := failures[k := Stored(failures, k) + [now]];
    }

    /** The second loop: the attempt counted against each key. */
    method CountAttempt(user: int, ip: Option<int>, now: real)
      modifies this`failures, this`inserted
      ensures failures == Appended(old(failures), Keys(user, ip), now)
      ensures inserted == old(inserted) + NewKeys(Keys(user, ip), old(failures))
    {
      var keys := KeySeq(user, ip);
      ghost var before, done := failures, {};
      assert Appended(before, {}, now) == before;
      for i := 0 to |keys|
        invariant done == SeqSet(keys[..i])
        invariant failures == Appended(before, done, now)
        invariant inserted == old(inserted) + NewKeys(done, before)
      {
        PrefixStep(user, ip, i);
        AppendMore(before, done, keys[i], now);
        NewKeyMore(before, done, keys[i]);
        Count(keys[i], now);
        done := done + {keys[i]};
      }
      assert keys[..|keys|] == keys;
      WholeSet(user, ip);
    }

    method Sweep(cutoff: real)
      modifies this
      ensures failures == PruneKeys(old(failures), old(failures).Keys, cutoff)
      ensures visited == old(visited) + |old(failures)| && inserted == old(inserted) && admitted == old(admitted)
      ensures nextSweep == Grown(failures)
    {
      ghost var before, done := failures, {};
      var left := failures.Keys;
      assert failures == PruneKeys(before, {}, cutoff);
      while left != {}
        invariant done !! left && done + left == before.Keys
        invariant failures == PruneKeys(before, done, cutoff)
        invariant visited == old(visited) + |done|
        invariant inserted == old(inserted) && admitted == old(admitted)
        decreases left
      {
        var k := AnyOf(left);
        Visit(k, cutoff, before, done);
        left, done := left - {k}, done + {k};
      }
      assert done == before.Keys;
      nextSweep := Grown(failures);
    }

    method Visit(k: Key, cutoff: real, ghost before: Log, ghost done: set<Key>)
      requires k !in done && failures == PruneKeys(before, done, cutoff)
      modifies this`failures, this`visited
      ensures failures == PruneKeys(before, done + {k}, cutoff) && visited == old(visited) + 1
    {
      PruneMore(before, done, k, cutoff);
      Prune(k, cutoff);
      visited := visited + 1;
    }

    method RecordSuccess(user: int, ip: Option<int>)
      modifies this`failures
      ensures View() == Success(old(View()), user, ip)
    {
      failures := failures - {User(user)};
      if ip.Some? && Ip(ip.value) in failures {
        var h := failures[Ip(ip.value)];
        if h != [] {
          h := h[..|h| - 1];
        }
        if h == [] {
          failures := failures - {Ip(ip.value)};
        } else {
          failures := failures[Ip(ip.value) := h];
        }
      }
    }
  }

  function SeqSet(ks: seq<Key>): set<Key> { set k | k in ks }

  function Counted(st: State, ks: set<Key>, now: real): State {
    st.(failures := Appended(st.failures, ks, now), inserted := st.inserted + NewKeys(ks, st.failures), admitted := st.admitted + 1)
  }

  function Swept(st: State, now: real, window: real): State {
    if |st.failures| < st.nextSweep then st
    else
      var s := PruneKeys(st.failures, st.failures.Keys, now - window);
      st.(failures := s, nextSweep := Grown(s), visited := st.visited + |st.failures|)
  }

  /** Counting, then sweeping. */
  lemma AdmittedIs(c: Limits, st: State, ks: set<Key>, now: real)
    ensures Admitted(c, st, ks, now) == Swept(Counted(st, ks, now), now, c.window)
  {}

  lemma PruneMore(s: Log, ks: set<Key>, k: Key, cutoff: real)
    requires k !in ks
    ensures PruneKeys(s, ks + {k}, cutoff) == PruneKeys(PruneKeys(s, ks, cutoff), {k}, cutoff)
  {}

  lemma {:induction false} MeasuredSame(c: Limits, s: Log, s': Log, ks: seq<Key>, i: nat, now: real)
    requires i <= |ks| && forall j :: 0 <= j < i ==> Wait(c, s, ks[j], now) == Wait(c, s', ks[j], now)
    ensures Measured(c, s, ks, i, now) == Measured(c, s', ks, i, now)
  {
    if i > 0 { MeasuredSame(c, s, s', ks, i - 1, now); }
  }

  lemma MeasuredAll(c: Limits, s: Log, user: int, ip: Option<int>, now: real)
    ensures Measured(c, s, KeySeq(user, ip), |KeySeq(user, ip)|, now) == Worst(c, s, user, ip, now)
  {
    var ks := KeySeq(user, ip);
    assert Measured(c, s, ks, 0, now) == 0.0;
    assert Measured(c, s, ks, 1, now) == Max(0.0, Wait(c, s, User(user), now));
  }

  lemma AppendMore(s: Log, ks: set<Key>, k: Key, now: real)
    requires k !in ks
    ensures var a := Appended(s, ks, now); Appended(s, ks + {k}, now) == a[k := Stored(a, k) + [now]]
    ensures k in Appended(s, ks, now) <==> k in s
  {}

  lemma NewKeyMore(s: Log, ks: set<Key>, k: Key)
    requires k !in ks
    ensures NewKeys(ks + {k}, s) == NewKeys(ks, s) + (if k in s then 0 else 1)
  {
    if k in s {
      assert Untracked(ks + {k}, s) == Untracked(ks, s);
    } else {
      assert Untracked(ks + {k}, s) == Untracked(ks, s) + {k};
    }
  }

  lemma PrefixStep(user: int, ip: Option<int>, i: nat)
    requires i < |KeySeq(user, ip)|
    ensures var ks := KeySeq(user, ip); SeqSet(ks[..i + 1]) == SeqSet(ks[..i]) + {ks[i]} && ks[i] !in SeqSet(ks[..i])
  {}

  lemma WholeSet(user: int, ip: Option<int>)
    ensures SeqSet(KeySeq(user, ip)) == Keys(user, ip)
  {}

  /** The longest wait among the keys measured so far; pruning a key leaves the others' alone. */
  function Measured(c: Limits, s: Log, ks: seq<Key>, i: nat, now: real): real
    requires i <= |ks|
  {
    if i == 0 then 0.0 else Max(Measured(c, s, ks, i - 1, now), Wait(c, s, ks[i - 1], now))
  }
}
