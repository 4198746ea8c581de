/** The sliding-window rate limiter (src/mm/exchange/rate_limit.py). Times are seconds of a monotonic clock. */
module RateLimit {
  import opened Types

  /** The calls of the last window: those at least `window` old are dropped from the front. */
  function Pruned(calls: seq<real>, window: real, now: real): seq<real> {
    if calls != [] && now - calls[0] >= window then Pruned(calls[1..], window, now) else calls
  }

  datatype Usage = Usage(maxCalls: int, windowSeconds: real, used: nat, remaining: int, resetAfter: real)

  class SlidingWindowRateLimiter {
    const maxCalls: int
    const windowSeconds: real
    var calls: seq<real>

    ghost predicate Valid()
      reads this
    {
      maxCalls > 0 && windowSeconds > 0.0 && |calls| <= maxCalls
    }

    constructor (maxCalls: int, windowSeconds: real)
      requires maxCalls > 0 && windowSeconds > 0.0
      ensures Valid() && calls == [] && this.maxCalls == maxCalls && this.windowSeconds == windowSeconds
    {
      this.maxCalls := maxCalls;
      this.windowSeconds := windowSeconds;
      calls := [];
    }

    static method Create(maxCalls: int, windowSeconds: real) returns (limiter: SlidingWindowRateLimiter?,
        outcome: Outcome)
      ensures outcome == if maxCalls <= 0 || windowSeconds <= 0.0 then Raised(ValueError) else Ok
      ensures outcome == Ok ==>
        && limiter != null && fresh(limiter) && limiter.Valid() && limiter.calls == []
        && limiter.maxCalls == maxCalls && limiter.windowSeconds == windowSeconds
    {
      limiter := null;
      if maxCalls <= 0 {
        return null, Raised(ValueError);
      }
      if windowSeconds <= 0.0 {
        return null, Raised(ValueError);
      }
      outcome := Ok;
      limiter := new SlidingWindowRateLimiter(maxCalls, windowSeconds);
    }

    method Prune(now: real)
      requires Valid()
      modifies this`calls
      ensures Valid() && calls == Pruned(old(calls), windowSeconds, now)
    {
      while calls != [] && now - calls[0] >= windowSeconds
        invariant Valid() && Pruned(calls, windowSeconds, now) == Pruned(old(calls), windowSeconds, now)
        decreases |calls|
      {
        calls := calls[1..];
      }
    }

    /** `allow`, with its reading of the clock. */
    method Allow(now: real) returns (granted: bool)
      requires Valid()
      modifies this`calls
      ensures Valid()
      ensures var a := Attempt(old(calls), maxCalls, windowSeconds, now); granted == a.granted && calls == a.calls
    {
      Prune(now);
      if |calls| >= maxCalls {
        return false;
      }
      calls := calls + [now];
      granted := true;
    }

    /** `wait`, with the readings of the clock it would take: it returns at reading `k`, the first at which a call is
        allowed. Nobody else calls the limiter meanwhile, and some reading `n` finds the oldest call expired. */
    method Wait(clock: nat -> real, ghost n: nat) returns (k: nat)
      requires Valid() && forall i: nat, j: nat | i <= j :: clock(i) <= clock(j)
      requires calls != [] ==> clock(n) - calls[0] >= windowSeconds
      modifies this`calls
      ensures Valid() && k <= n
      ensures Attempt(old(calls), maxCalls, windowSeconds, clock(k)) == Attempted(calls, true)
      ensures forall i: nat | i < k :: !Attempt(old(calls), maxCalls, windowSeconds, clock(i)).granted
    {
      k := 0;
      while true
        invariant Valid() && k <= n
        invariant k > 0 ==> calls == Pruned(old(calls), windowSeconds, clock(k - 1))
        invariant k == 0 ==> calls == old(calls)
        invariant forall i: nat | i < k :: !Attempt(old(calls), maxCalls, windowSeconds, clock(i)).granted
        decreases n - k
      {
        if k > 0 {
          PrunedTwice(old(calls), windowSeconds, clock(k - 1), clock(k));
        }
        Prune(clock(k));
        if |calls| < maxCalls {
          calls := calls + [clock(k)];
          return;
        }
        if k == n {
          PrunedLength(old(calls), windowSeconds, clock(n));
          assert false;
        }
        k := k + 1;
      }
    }

    method Snapshot(now: real) returns (usage: Usage)
      requires Valid()
      modifies this`calls
      ensures Valid() && calls == Pruned(old(calls), windowSeconds, now)
      ensures usage.maxCalls == maxCalls && usage.windowSeconds == windowSeconds
      ensures usage.used == |calls| && usage.remaining == maxCalls - |calls| >= 0
      ensures usage.resetAfter >= 0.0
      ensures calls == [] ==> usage.resetAfter == 0.0
      ensures calls != [] ==> (now + usage.resetAfter) - calls[0] == windowSeconds
    {
      Prune(now);
      var resetAfter := 0.0;
      if calls != [] {
        PrunedHead(old(calls), windowSeconds, now);
        resetAfter := Max(0.0, windowSeconds - (now - calls[0]));
      }
      var used := |calls|;
      usage := Usage(maxCalls, windowSeconds, used, if maxCalls - used < 0 then 0 else maxCalls - used, resetAfter);
    }
  }

  /** The outcome of one attempt: a grant records its time, a refusal only prunes. */
  datatype Attempted = Attempted(calls: seq<real>, granted: bool)

  function Attempt(calls: seq<real>, maxCalls: int, window: real, now: real): Attempted {
    var recent := Pruned(calls, window, now);
    if |recent| >= maxCalls then Attempted(recent, false) else Attempted(recent + [now], true)
  }

  lemma {:induction false} PrunedLength(calls: seq<real>, window: real, now: real)
    ensures |Pruned(calls, window, now)| <= |calls|
    ensures calls != [] && now - calls[0] >= window ==> |Pruned(calls, window, now)| < |calls|
  {
    if calls != [] && now - calls[0] >= window {
      PrunedLength(calls[1..], window, now);
    }
  }

  lemma {:induction false} PrunedHead(calls: seq<real>, window: real, now: real)
    ensures var r := Pruned(calls, window, now); r != [] ==> now - r[0] < window
  {
    if calls != [] && now - calls[0] >= window {
      PrunedHead(calls[1..], window, now);
    }
  }

  lemma {:induction false} PrunedTwice(calls: seq<real>, window: real, a: real, b: real)
    requires a <= b
    ensures Pruned(Pruned(calls, window, a), window, b) == Pruned(calls, window, b)
  {
    if calls != [] && a - calls[0] >= window {
      PrunedTwice(calls[1..], window, a, b);
    }
  }

  /** A refused attempt has no effect on a later one: `wait` is a run of attempts up to the first that is granted. */
  lemma RefusalIsHarmless(calls: seq<real>, maxCalls: int, window: real, a: real, b: real)
    requires a <= b && !Attempt(calls, maxCalls, window, a).granted
    ensures Attempt(Attempt(calls, maxCalls, window, a).calls, maxCalls, window, b)
         == Attempt(calls, maxCalls, window, b)
  {
    PrunedTwice(calls, window, a, b);
  }

  /** How long `wait` sleeps after a refusal, when `oldest` is the oldest call left. */
  function SleepFor(window: real, now: real, oldest: real): real {
    Min(window - (now - oldest), window)
  }

  /** The sleep ends exactly when the oldest call expires: no earlier attempt would be granted. */
  lemma SleepIsNeeded(calls: seq<real>, maxCalls: int, window: real, now: real, sooner: real)
    requires 0 < maxCalls && |calls| <= maxCalls && calls != [] && calls[0] <= now
    requires !Attempt(calls, maxCalls, window, now).granted && now <= sooner < now + SleepFor(window, now, calls[0])
    ensures now + SleepFor(window, now, calls[0]) == calls[0] + window
    ensures Attempt(calls, maxCalls, window, sooner) == Attempted(calls, false)
  {
    PrunedLength(calls, window, now);
  }

  /** Without competitors one such sleep is enough. */
  lemma OneSleepSuffices(calls: seq<real>, maxCalls: int, window: real, now: real, later: real)
    requires 0 < maxCalls && |calls| <= maxCalls && calls != [] && calls[0] <= now
    requires !Attempt(calls, maxCalls, window, now).granted && later >= now + SleepFor(window, now, calls[0])
    ensures Attempt(calls, maxCalls, window, now).calls == calls
    ensures Attempt(calls, maxCalls, window, later).granted
  {
    PrunedLength(calls, window, now);
    PrunedLength(calls, window, later);
  }

  // ------------------------------------------------------------------------------- runs

  /** What a limiter sees: attempts (`allow`, or one turn of `wait`), and `snapshot` calls. */
  datatype Event = TryAt(now: real) | LookAt(now: real)

  /** The limiter's calls, and all grants ever made. */
  datatype LimiterRun = LimiterRun(calls: seq<real>, grants: seq<real>)

  function AfterRead(h: LimiterRun, e: Event, maxCalls: int, window: real): LimiterRun {
    match e
    case LookAt(now) => h.(calls := Pruned(h.calls, window, now))
    case TryAt(now) =>
      var a := Attempt(h.calls, maxCalls, window, now);
      LimiterRun(a.calls, if a.granted then h.grants + [now] else h.grants)
  }

  function RunLimiter(events: seq<Event>, maxCalls: int, window: real): LimiterRun {
    if events == [] then LimiterRun([], [])
    else AfterRead(RunLimiter(events[..|events| - 1], maxCalls, window), events[|events| - 1], maxCalls, window)
  }

  ghost predicate Nondecreasing(events: seq<Event>) {
    forall i, j | 0 <= i <= j < |events| :: events[i].now <= events[j].now
  }

  ghost predicate Sorted(xs: seq<real>) {
    forall i, j | 0 <= i <= j < |xs| :: xs[i] <= xs[j]
  }

  /** The limiter remembers a suffix of its grants: enough of it, since every forgotten grant is a window old. */
  ghost predicate Remembers(h: LimiterRun, maxCalls: int, window: real, now: real) {
    var forgotten := |h.grants| - |h.calls|;
    && forgotten >= 0 && h.calls == h.grants[forgotten..] && |h.calls| <= maxCalls
    && Sorted(h.grants)
    && (forall i | 0 <= i < |h.grants| :: h.grants[i] <= now)
    && (forall i | 0 <= i < forgotten :: now - h.grants[i] >= window)
    && (forall i | 0 <= i < |h.grants| - maxCalls :: h.grants[i + maxCalls] - h.grants[i] >= window)
  }

  lemma {:induction false} PruneRemembers(h: LimiterRun, maxCalls: int, window: real, before: real, now: real)
    requires Remembers(h, maxCalls, window, before) && before <= now
    ensures Remembers(h.(calls := Pruned(h.calls, window, now)), maxCalls, window, now)
    decreases |h.calls|
  {
    if h.calls != [] && now - h.calls[0] >= window {
      var forgotten := |h.grants| - |h.calls|;
      hide Pruned;
      var next := h.(calls := h.calls[1..]);
      assert h.grants[forgotten] == h.calls[0];
      assert Remembers(next, maxCalls, window, now);
      PruneRemembers(next, maxCalls, window, now, now);
    }
  }

  /** A grant on top of fewer than maxCalls remembered ones: the one maxCalls before it is forgotten. */
  lemma GrantRemembers(h: LimiterRun, maxCalls: int, window: real, now: real)
    requires Remembers(h, maxCalls, window, now) && |h.calls| < maxCalls
    ensures Remembers(LimiterRun(h.calls + [now], h.grants + [now]), maxCalls, window, now)
  {
    var g := h.grants + [now];
    var forgotten := |h.grants| - |h.calls|;
    assert g[forgotten..] == h.calls + [now];
    assert Sorted(g);
    forall i | 0 <= i < |g| - maxCalls
      ensures g[i + maxCalls] - g[i] >= window
    {
      if i + maxCalls < |h.grants| {
        assert h.grants[i + maxCalls] - h.grants[i] >= window;
      } else {
        assert i < forgotten;
      }
    }
  }

  lemma StepRemembers(h: LimiterRun, e: Event, maxCalls: int, window: real, before: real)
    requires maxCalls > 0 && Remembers(h, maxCalls, window, before) && before <= e.now
    ensures Remembers(AfterRead(h, e, maxCalls, window), maxCalls, window, e.now)
  {
    hide Remembers, Pruned;
    PruneRemembers(h, maxCalls, window, before, e.now);
    var p := h.(calls := Pruned(h.calls, window, e.now));
    if e.TryAt? && |p.calls| < maxCalls {
      GrantRemembers(p, maxCalls, window, e.now);
    }
  }

  lemma NothingRemembered(maxCalls: int, window: real, now: real)
    requires maxCalls > 0
    ensures Remembers(LimiterRun([], []), maxCalls, window, now)
  {
    var none: seq<real> := [];
    assert none[0..] == none;
    assert Sorted(none);
  }

  lemma RemembersLater(h: LimiterRun, maxCalls: int, window: real, before: real, now: real)
    requires Remembers(h, maxCalls, window, before) && before <= now
    ensures Remembers(h, maxCalls, window, now)
  {
  }

  lemma {:induction false} RunRemembers(events: seq<Event>, maxCalls: int, window: real, now: real)
    requires maxCalls > 0 && Nondecreasing(events) && (events != [] ==> events[|events| - 1].now <= now)
    ensures Remembers(RunLimiter(events, maxCalls, window), maxCalls, window, now)
  {
    hide Remembers, AfterRead;
    if events == [] {
      NothingRemembered(maxCalls, window, now);
    } else {
      var n := |events| - 1;
      RunRemembers(events[..n], maxCalls, window, events[n].now);
      StepRemembers(RunLimiter(events[..n], maxCalls, window), events[n], maxCalls, window, events[n].now);
      RemembersLater(RunLimiter(events, maxCalls, window), maxCalls, window, events[n].now, now);
    }
  }

  /** Any maxCalls + 1 consecutive grants span at least the window. */
  lemma GrantsAreSpaced(events: seq<Event>, maxCalls: int, window: real, i: nat)
    requires maxCalls > 0 && Nondecreasing(events)
    requires i + maxCalls < |RunLimiter(events, maxCalls, window).grants|
    ensures var g := RunLimiter(events, maxCalls, window).grants; g[i + maxCalls] - g[i] >= window
  {
    RunRemembers(events, maxCalls, window, events[|events| - 1].now);
  }

  function GrantsWithin(grants: seq<real>, from: real, window: real): set<int> {
    set i | 0 <= i < |grants| && from <= grants[i] < from + window
  }

  lemma {:induction false} FirstAtLeast(xs: seq<real>, t: real) returns (a: nat)
    requires Sorted(xs)
    ensures a <= |xs| && (forall i | 0 <= i < a :: xs[i] < t) && (forall i | a <= i < |xs| :: xs[i] >= t)
  {
    if xs == [] || xs[|xs| - 1] < t {
      a := |xs|;
    } else {
      a := FirstAtLeast(xs[..|xs| - 1], t);
    }
  }

  function Range(a: int, n: nat): set<int> {
    if n == 0 then {} else Range(a, n - 1) + {a + n - 1}
  }

  lemma {:induction false} RangeSize(a: int, n: nat)
    ensures |Range(a, n)| == n && forall i :: i in Range(a, n) <==> a <= i < a + n
  {
    if n > 0 {
      RangeSize(a, n - 1);
    }
  }

  lemma SubsetSize(a: set<int>, b: set<int>)
    requires a <= b
    ensures |a| <= |b|
  {
    assert b == a + (b - a);
  }

  lemma WithinFirst(h: LimiterRun, maxCalls: int, window: real, now: real, a: nat, i: nat)
    requires maxCalls > 0 && Remembers(h, maxCalls, window, now)
    requires a <= i < |h.grants| && h.grants[i] < h.grants[a] + window
    ensures i < a + maxCalls
  {
    if a + maxCalls < |h.grants| {
      assert h.grants[a + maxCalls] - h.grants[a] >= window;
    }
  }

  /** No half-open window holds more than maxCalls grants, wherever it starts. */
  lemma NoWindowOverflows(events: seq<Event>, maxCalls: int, window: real, from: real)
    requires maxCalls > 0 && Nondecreasing(events)
    ensures |GrantsWithin(RunLimiter(events, maxCalls, window).grants, from, window)| <= maxCalls
  {
    var g := RunLimiter(events, maxCalls, window).grants;
    if events != [] {
      RunRemembers(events, maxCalls, window, events[|events| - 1].now);
      var a := FirstAtLeast(g, from);
      RangeSize(a, maxCalls);
      forall i | i in GrantsWithin(g, from, window)
        ensures i in Range(a, maxCalls)
      {
        WithinFirst(RunLimiter(events, maxCalls, window), maxCalls, window, events[|events| - 1].now, a, i);
      }
      SubsetSize(GrantsWithin(g, from, window), Range(a, maxCalls));
    }
  }

  lemma FullMeans(h: LimiterRun, maxCalls: int, window: real, now: real)
    requires maxCalls > 0 && Remembers(h, maxCalls, window, now) && (h.calls != [] ==> now - h.calls[0] < window)
    ensures |h.calls| >= maxCalls <==> |h.grants| >= maxCalls && now - h.grants[|h.grants| - maxCalls] < window
  {
    var forgotten := |h.grants| - |h.calls|;
    if |h.calls| >= maxCalls {
      assert h.calls[0] == h.grants[forgotten];
    } else if |h.grants| >= maxCalls {
      assert now - h.grants[|h.grants| - maxCalls] >= window;
    }
  }

  /** An attempt is refused exactly when the last maxCalls grants are all younger than the window. */
  lemma RefusedExactlyWhenFull(events: seq<Event>, maxCalls: int, window: real, now: real)
    requires maxCalls > 0 && Nondecreasing(events) && (events != [] ==> events[|events| - 1].now <= now)
    ensures var h := RunLimiter(events, maxCalls, window);
      !Attempt(h.calls, maxCalls, window, now).granted
      <==> |h.grants| >= maxCalls && now - h.grants[|h.grants| - maxCalls] < window
  {
    hide Remembers, Pruned, RunLimiter;
    var h := RunLimiter(events, maxCalls, window);
    RunRemembers(events, maxCalls, window, now);
    PruneRemembers(h, maxCalls, window, now, now);
    PrunedHead(h.calls, window, now);
    FullMeans(h.(calls := Pruned(h.calls, window, now)), maxCalls, window, now);
  }
}
