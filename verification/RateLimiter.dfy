/** The limiter is a fixed-window counter: the first hit of a window sets its expiry, later hits only count. */
module RateLimiting {
  import opened Arithmetic
  import opened Model
  import opened TtlStore
  import opened RedisServer

  datatype Policy = Policy(limit: nat, window: nat)

  /** The counter of one key after a hit at `now`: a new window when none is live, otherwise one more in this one. */
  function Bump(p: Policy, b: Option<Cell<nat>>, now: Time): Cell<nat> {
    if b.None? || !Live(b.value, now) || b.value.value == 0
    then Cell(1, Some(now + p.window))
    else Cell(b.value.value + 1, b.value.expiry)
  }

  predicate Admits(p: Policy, b: Option<Cell<nat>>, now: Time) {
    Bump(p, b, now).value <= p.limit
  }

  class RateLimiter {
    const redis: Redis
    const policy: Policy

    constructor (redis: Redis, policy: Policy)
      ensures this.redis == redis && this.policy == policy
    {
      this.redis, this.policy := redis, policy;
    }

    /** The Lua script, run as one Redis command. */
    method Allow(key: LimitKey) returns (ok: bool)
      modifies redis
      ensures ok == Admits(policy, Find(old(redis.state).counters, key), old(redis.state).now)
      ensures redis.state == old(redis.state).(counters := old(redis.state).counters[key :=
        Bump(policy, Find(old(redis.state).counters, key), old(redis.state).now)])
    {
      var (counters, count) := Incr(redis.state.counters, redis.state.now, key);
      if count == 1 {
        counters := Expire(counters, redis.state.now, key, policy.window);
      }
      redis.state := redis.state.(counters := counters);
      ok := !(count > policy.limit);
    }
  }

  // ----- One key over a whole run of calls, given by their times -----

  ghost predicate Ordered(times: seq<Time>) {
    forall i, j :: 0 <= i < j < |times| ==> times[i] <= times[j]
  }

  /** The key's counter after calls at `times`, starting with no counter at all. */
  ghost function After(p: Policy, times: seq<Time>): Option<Cell<nat>> {
    if times == [] then None
    else Some(Bump(p, After(p, times[..|times| - 1]), times[|times| - 1]))
  }

  /** Whether call `i` is admitted. */
  ghost predicate Admitted(p: Policy, times: seq<Time>, i: nat)
    requires i < |times|
  {
    Admits(p, After(p, times[..i]), times[i])
  }

  /** How many calls in the half-open interval [lo, hi) are admitted. */
  ghost function AdmittedIn(p: Policy, times: seq<Time>, lo: Time, hi: Time): nat {
    if times == [] then 0
    else
      var n := |times| - 1;
      AdmittedIn(p, times[..n], lo, hi) + (if lo <= times[n] < hi && Admitted(p, times, n) then 1 else 0)
  }

  // ----- The sliding-interval bound -----

  /** What the key may still admit in [t, hi): the rest of a live window, then whole windows. */
  ghost function Allowance(p: Policy, b: Option<Cell<nat>>, t: Time, hi: Time): nat
    requires p.window > 0
  {
    if b.Some? && b.value.expiry.Some? && t < b.value.expiry.value && b.value.value > 0 then
      (if b.value.value < p.limit then p.limit - b.value.value else 0)
      + p.limit * CeilDiv(hi - b.value.expiry.value, p.window)
    else
      p.limit * CeilDiv(hi - t, p.window)
  }

  ghost predicate Expiring(b: Option<Cell<nat>>) {
    b.Some? ==> b.value.expiry.Some? && b.value.value > 0
  }

  /** Every hit pays for its admission out of the allowance. */
  lemma HitPays(p: Policy, b: Option<Cell<nat>>, t0: Time, t: Time, hi: Time)
    requires p.window > 0 && Expiring(b) && t0 <= t < hi
    ensures Allowance(p, Some(Bump(p, b, t)), t, hi) + (if Admits(p, b, t) then 1 else 0) <= Allowance(p, b, t0, hi)
  {
    var w := p.window;
    if b.Some? && t < b.value.expiry.value {
    } else {
      var start := if b.Some? && t0 < b.value.expiry.value then b.value.expiry.value else t0;
      CeilDivMonotone(hi - t, hi - start, w);
      MulMonotone(p.limit, CeilDiv(hi - t, w), CeilDiv(hi - start, w));
      assert p.limit * (CeilDiv(hi - t - w, w) + 1) == p.limit * CeilDiv(hi - t - w, w) + p.limit;
      assert hi - (t + w) == hi - t - w;
    }
  }

  lemma {:induction false} CounterExpires(p: Policy, times: seq<Time>)
    requires Ordered(times)
    ensures Expiring(After(p, times))
    ensures times != [] ==> After(p, times).value.expiry.value <= times[|times| - 1] + p.window
  {
    if times != [] { CounterExpires(p, times[..|times| - 1]); }
  }

  /** The most calls of one key that any interval of this length can admit: whole windows from its start, or what an
      earlier window has left in the first tick and whole windows from the next. */
  ghost function Most(p: Policy, length: int): nat
    requires p.window > 0
  {
    if p.limit == 0 || length <= 0 then 0
    else
      var whole := p.limit * CeilDiv(length, p.window);
      var straddling := p.limit - 1 + p.limit * CeilDiv(length - 1, p.window);
      if whole < straddling then straddling else whole
  }

  lemma {:induction false} SlidingBoundInductive(p: Policy, times: seq<Time>, lo: Time, hi: Time)
    requires p.window > 0 && Ordered(times)
    ensures AdmittedIn(p, times, lo, hi) <= Most(p, hi - lo)
    ensures times == [] || times[|times| - 1] < lo ==> AdmittedIn(p, times, lo, hi) == 0
    ensures times != [] && lo <= times[|times| - 1] < hi ==>
              AdmittedIn(p, times, lo, hi) + Allowance(p, After(p, times), times[|times| - 1], hi) <= Most(p, hi - lo)
  {
    if times != [] {
      var n := |times| - 1;
      var before := times[..n];
      SlidingBoundInductive(p, before, lo, hi);
      CounterExpires(p, before);
      if lo <= times[n] < hi {
        var b := After(p, before);
        if before == [] || before[n - 1] < lo {
          HitPays(p, b, lo, times[n], hi);
          StartAllowance(p, b, lo, hi);
        } else {
          HitPays(p, b, before[n - 1], times[n], hi);
        }
      }
    }
  }

  lemma StartAllowance(p: Policy, b: Option<Cell<nat>>, lo: Time, hi: Time)
    requires p.window > 0 && Expiring(b) && lo < hi
    ensures Allowance(p, b, lo, hi) <= Most(p, hi - lo)
  {
    if b.Some? && lo < b.value.expiry.value {
      CeilDivMonotone(hi - b.value.expiry.value, hi - lo - 1, p.window);
      MulMonotone(p.limit, CeilDiv(hi - b.value.expiry.value, p.window), CeilDiv(hi - lo - 1, p.window));
    }
    hide CeilDiv;
  }

  /** No interval admits more than `Most` of its length; in particular an interval of length T never admits more than
      limit * (ceil(T / window) + 1) calls, and with a positive limit always at least one fewer. */
  lemma SlidingBound(p: Policy, times: seq<Time>, lo: Time, hi: Time)
    requires p.window > 0 && Ordered(times)
    ensures AdmittedIn(p, times, lo, hi) <= Most(p, hi - lo)
    ensures AdmittedIn(p, times, lo, hi) <= p.limit * (CeilDiv(hi - lo, p.window) + 1) - (if p.limit > 0 then 1 else 0)
  {
    SlidingBoundInductive(p, times, lo, hi);
    MostIsBelow(p, hi - lo);
  }

  lemma MostIsBelow(p: Policy, length: int)
    requires p.window > 0
    ensures Most(p, length) <= p.limit * (CeilDiv(length, p.window) + 1) - (if p.limit > 0 then 1 else 0)
  {
    var c := CeilDiv(length, p.window);
    assert p.limit * (c + 1) == p.limit * c + p.limit;
    CeilDivMonotone(length - 1, length, p.window);
    MulMonotone(p.limit, CeilDiv(length - 1, p.window), c);
    MulMonotone(p.limit, 0, c);
    hide CeilDiv;
  }

  // ----- The bound is met -----

  ghost function Burst(t: Time, n: nat): seq<Time> {
    if n == 0 then [] else Burst(t, n - 1) + [t]
  }

  /** How much of a window live at `t` is used. */
  ghost function Used(b: Option<Cell<nat>>, t: Time): nat {
    if b.None? || !Live(b.value, t) then 0 else b.value.value
  }

  /** When the window of a call at `t` ends. */
  ghost function WindowEnd(p: Policy, b: Option<Cell<nat>>, t: Time): Time
    requires Expiring(b)
  {
    if Used(b, t) == 0 then t + p.window else b.value.expiry.value
  }

  lemma OneMoreCall(p: Policy, times: seq<Time>, t: Time, lo: Time, hi: Time)
    ensures After(p, times + [t]) == Some(Bump(p, After(p, times), t))
    ensures AdmittedIn(p, times + [t], lo, hi) ==
            AdmittedIn(p, times, lo, hi) + (if lo <= t < hi && Admits(p, After(p, times), t) then 1 else 0)
  {
    assert (times + [t])[..|times|] == times;
  }

  /** The counter after a burst at `t`. */
  ghost function AfterBurst(p: Policy, b: Option<Cell<nat>>, t: Time, n: nat): Option<Cell<nat>>
    requires Expiring(b)
  {
    if n == 0 then b else Some(Cell(Used(b, t) + n, Some(WindowEnd(p, b, t))))
  }

  lemma BumpBurst(p: Policy, b: Option<Cell<nat>>, t: Time, n: nat)
    requires Expiring(b) && p.window > 0
    ensures Some(Bump(p, AfterBurst(p, b, t, n), t)) == AfterBurst(p, b, t, n + 1)
    ensures Admits(p, AfterBurst(p, b, t, n), t) <==> Used(b, t) + n + 1 <= p.limit
  {}

  lemma BurstGrows(times: seq<Time>, t: Time, n: nat)
    requires n > 0
    ensures times + Burst(t, n) == times + Burst(t, n - 1) + [t]
  {}

  /** A burst that fits into what is left of the window is admitted whole. */
  lemma {:induction false} BurstAdmitted(p: Policy, times: seq<Time>, t: Time, n: nat, lo: Time, hi: Time)
    requires Expiring(After(p, times)) && p.window > 0
    requires Used(After(p, times), t) + n <= p.limit
    ensures AdmittedIn(p, times + Burst(t, n), lo, hi) ==
            AdmittedIn(p, times, lo, hi) + (if lo <= t < hi then n else 0)
    ensures After(p, times + Burst(t, n)) == AfterBurst(p, After(p, times), t, n)
  {
    hide *;
    if n == 0 {
      NoBurst(p, times, t);
    } else {
      BurstGrows(times, t, n);
      BurstAdmitted(p, times, t, n - 1, lo, hi);
      BumpBurst(p, After(p, times), t, n - 1);
      OneMoreCall(p, times + Burst(t, n - 1), t, lo, hi);
    }
  }

  lemma NoBurst(p: Policy, times: seq<Time>, t: Time)
    requires Expiring(After(p, times))
    ensures times + Burst(t, 0) == times
    ensures AfterBurst(p, After(p, times), t, 0) == After(p, times)
  {
    hide After;
  }

  lemma {:induction false} BurstShape(t: Time, n: nat)
    ensures |Burst(t, n)| == n && forall i :: 0 <= i < n ==> Burst(t, n)[i] == t
  {
    if n > 0 { BurstShape(t, n - 1); }
  }

  /** One call opens a window, the rest of its allowance comes at its last tick, then `k` full windows follow. */
  ghost function WorstCase(p: Policy, k: nat): seq<Time>
    requires p.window > 0 && p.limit > 0
  {
    if k == 0 then [0] + Burst(p.window - 1, p.limit - 1)
    else WorstCase(p, k - 1) + Burst(Multiple(p.window, k), p.limit)
  }

  lemma {:induction false} WorstCaseOrdered(p: Policy, k: nat)
    requires p.window > 1 && p.limit > 0
    ensures var times := WorstCase(p, k);
            Ordered(times) && times != [] && times[|times| - 1] < Multiple(p.window, k + 1)
  {
    if k == 0 {
      BurstShape(p.window - 1, p.limit - 1);
    } else {
      WorstCaseOrdered(p, k - 1);
      BurstShape(Multiple(p.window, k), p.limit);
    }
  }

  /** A burst at the end of a full window fills the next one. */
  lemma NewWindow(p: Policy, b: Option<Cell<nat>>, t: Time)
    requires b == Some(Cell(p.limit, Some(t))) && p.limit > 0
    ensures Expiring(b) && Used(b, t) == 0 && AfterBurst(p, b, t, p.limit) == Some(Cell(p.limit, Some(t + p.window)))
  {}

  lemma FirstWindowAdmits(p: Policy, hi: Time)
    requires p.window > 1 && p.limit > 0 && hi >= p.window
    ensures After(p, WorstCase(p, 0)) == Some(Cell(p.limit, Some(Multiple(p.window, 1))))
    ensures AdmittedIn(p, WorstCase(p, 0), p.window - 1, hi) == p.limit - 1 + Multiple(p.limit, 0)
  {
    var lo := p.window - 1;
    OneMoreCall(p, [], 0, lo, hi);
    assert [] + [0] == [0];
    assert After(p, [0]) == Some(Cell(1, Some(p.window))) && AdmittedIn(p, [0], lo, hi) == 0;
    assert Multiple(p.window, 1) == Multiple(p.window, 0) + p.window;
    hide After, AdmittedIn, Burst, Multiple;
    BurstAdmitted(p, [0], p.window - 1, p.limit - 1, lo, hi);
  }

  lemma {:induction false} WorstCaseAdmits(p: Policy, k: nat, hi: Time)
    requires p.window > 1 && p.limit > 0 && hi > Multiple(p.window, k) && hi >= p.window
    ensures After(p, WorstCase(p, k)) == Some(Cell(p.limit, Some(Multiple(p.window, k + 1))))
    ensures AdmittedIn(p, WorstCase(p, k), p.window - 1, hi) == p.limit - 1 + Multiple(p.limit, k)
  {
    hide *;
    if k == 0 {
      FirstWindowAdmits(p, hi);
    } else {
      WorstCaseNext(p, k);
      WorstCaseAdmits(p, k - 1, hi);
      NewWindow(p, After(p, WorstCase(p, k - 1)), Multiple(p.window, k));
      BurstAdmitted(p, WorstCase(p, k - 1), Multiple(p.window, k), p.limit, p.window - 1, hi);
    }
  }

  lemma WorstCaseNext(p: Policy, k: nat)
    requires p.window > 1 && p.limit > 0 && k > 0
    ensures WorstCase(p, k) == WorstCase(p, k - 1) + Burst(Multiple(p.window, k), p.limit)
    ensures Multiple(p.window, k) == Multiple(p.window, k - 1) + p.window
    ensures Multiple(p.window, k + 1) == Multiple(p.window, k) + p.window
    ensures Multiple(p.limit, k) == Multiple(p.limit, k - 1) + p.limit
    ensures Multiple(p.window, k) >= p.window
  {}

  /** Full windows from the start, `limit` calls at once in each. */
  ghost function FullWindows(p: Policy, k: nat): seq<Time> {
    if k == 0 then [] else FullWindows(p, k - 1) + Burst(Multiple(p.window, k - 1), p.limit)
  }

  lemma {:induction false} FullWindowsOrdered(p: Policy, k: nat)
    requires p.window > 0
    ensures var times := FullWindows(p, k);
      Ordered(times) && (times != [] ==> times[|times| - 1] < Multiple(p.window, k))
  {
    if k > 0 {
      FullWindowsOrdered(p, k - 1);
      BurstShape(Multiple(p.window, k - 1), p.limit);
    }
  }

  lemma {:induction false} FullWindowsAdmit(p: Policy, k: nat, hi: Time)
    requires p.window > 0 && p.limit > 0 && (k > 0 ==> hi > Multiple(p.window, k - 1))
    ensures After(p, FullWindows(p, k)) == if k == 0 then None else Some(Cell(p.limit, Some(Multiple(p.window, k))))
    ensures AdmittedIn(p, FullWindows(p, k), 0, hi) == Multiple(p.limit, k)
  {
    if k == 0 { return; }
    var before, t := FullWindows(p, k - 1), Multiple(p.window, k - 1);
    assert k > 1 ==> t == Multiple(p.window, k - 2) + p.window;
    assert Multiple(p.window, k) == t + p.window && Multiple(p.limit, k) == Multiple(p.limit, k - 1) + p.limit;
    assert FullWindows(p, k) == before + Burst(t, p.limit);
    hide AdmittedIn, After, FullWindows, Multiple, Burst;
    FullWindowsAdmit(p, k - 1, hi);
    BurstAdmitted(p, before, t, p.limit, 0, hi);
  }

  lemma MostOfWhole(p: Policy, length: nat) returns (times: seq<Time>)
    requires p.window > 0 && p.limit > 0 && length > 0
    ensures Ordered(times) && AdmittedIn(p, times, 0, length) == p.limit * CeilDiv(length, p.window)
  {
    var k := CeilDiv(length, p.window);
    times := FullWindows(p, k);
    CeilDivRoundsUp(length, p.window);
    MultipleIs(p.window, k - 1);
    MultipleIs(p.limit, k);
    hide CeilDiv, AdmittedIn, FullWindows, Multiple, Ordered;
    FullWindowsOrdered(p, k);
    FullWindowsAdmit(p, k, length);
  }

  lemma MostOfStraddling(p: Policy, length: nat) returns (times: seq<Time>)
    requires p.window > 1 && p.limit > 0 && length > 0
    ensures Ordered(times)
    ensures AdmittedIn(p, times, p.window - 1, p.window - 1 + length) ==
      p.limit - 1 + p.limit * CeilDiv(length - 1, p.window)
  {
    var k := CeilDiv(length - 1, p.window);
    times := WorstCase(p, k);
    if length > 1 { CeilDivRoundsUp(length - 1, p.window); }
    assert (k - 1) * p.window == k * p.window - p.window;
    MultipleIs(p.window, k);
    MultipleIs(p.limit, k);
    assert Multiple(p.window, k) < p.window - 1 + length;
    hide CeilDiv, AdmittedIn, WorstCase, Multiple, Ordered;
    WorstCaseOrdered(p, k);
    WorstCaseAdmits(p, k, p.window - 1 + length);
  }

  /** With windows of one tick nothing is left over from an earlier window. */
  lemma TickWindows(p: Policy, length: nat)
    requires p.window == 1 && p.limit > 0 && length > 0
    ensures Most(p, length) == p.limit * CeilDiv(length, 1)
  {
    CeilDivByOne(length);
    CeilDivByOne(length - 1);
    assert p.limit * length == p.limit * (length - 1) + p.limit;
    hide CeilDiv;
  }

  /** The maximum is exact: for every length some run of calls and some interval of that length reach it. */
  lemma MostIsReached(p: Policy, length: nat) returns (times: seq<Time>, lo: Time)
    requires p.window > 0
    ensures Ordered(times) && AdmittedIn(p, times, lo, lo + length) == Most(p, length)
  {
    times, lo := [], 0;
    if p.limit > 0 && length > 0 {
      hide AdmittedIn, Ordered, CeilDiv;
      if Most(p, length) == p.limit * CeilDiv(length, p.window) {
        times := MostOfWhole(p, length);
      } else {
        if p.window == 1 { TickWindows(p, length); }
        times := MostOfStraddling(p, length);
        lo := p.window - 1;
      }
    }
  }

  /** Some calls in order and some interval of this length with exactly `n` of them admitted. */
  ghost predicate CanAdmit(p: Policy, length: nat, n: int) {
    exists times: seq<Time>, lo: Time, hi: Time ::
      hi == lo + length && Ordered(times) && AdmittedIn(p, times, lo, hi) == n
  }

  /** The sliding bound itself is reached exactly by the lengths T for which T - 1 is no multiple of the window, and
      with a limit of one by all. */
  lemma SlidingBoundIsTight(p: Policy, length: nat)
    requires p.window > 0 && p.limit > 0 && length > 0
    ensures CanAdmit(p, length, p.limit * (CeilDiv(length, p.window) + 1) - 1) <==>
            p.limit == 1 || CeilDiv(length - 1, p.window) == CeilDiv(length, p.window)
  {
    var bound := p.limit * (CeilDiv(length, p.window) + 1) - 1;
    MostReachesBoundIff(p, length);
    MostIsBelow(p, length);
    if Most(p, length) == bound { var times, lo := MostIsReached(p, length); }
    if CanAdmit(p, length, bound) {
      var times: seq<Time>, lo: Time, hi: Time :|
        hi == lo + length && Ordered(times) && AdmittedIn(p, times, lo, hi) == bound;
      SlidingBound(p, times, lo, hi);
    }
    hide AdmittedIn, Ordered, CeilDiv, Most;
  }

  lemma MostReachesBoundIff(p: Policy, length: nat)
    requires p.window > 0 && p.limit > 0 && length > 0
    ensures Most(p, length) == p.limit * (CeilDiv(length, p.window) + 1) - 1 <==>
            p.limit == 1 || CeilDiv(length - 1, p.window) == CeilDiv(length, p.window)
  {
    var c, d := CeilDiv(length, p.window), CeilDiv(length - 1, p.window);
    CeilDivMonotone(length - 1, length, p.window);
    assert p.limit * (c + 1) == p.limit * c + p.limit;
    if d < c {
      MulMonotone(p.limit, d, c - 1);
      assert p.limit * (c - 1) == p.limit * c - p.limit;
    }
    hide CeilDiv;
  }

  // ----- Denials -----

  /** Call `start` opened the window that call `i` fell into. */
  ghost predicate InWindowOf(p: Policy, times: seq<Time>, start: nat, i: nat)
    requires i < |times|
  {
    && start <= i
    && After(p, times[..i + 1]) == Some(Cell(i - start + 1, Some(times[start] + p.window)))
    && times[i] < times[start] + p.window
    && (forall k :: start <= k <= i ==> (Admitted(p, times, k) <==> k < start + p.limit))
  }

  lemma {:induction false} WindowOf(p: Policy, times: seq<Time>, i: nat) returns (start: nat)
    requires Ordered(times) && p.window > 0 && i < |times|
    ensures InWindowOf(p, times, start, i)
    ensures After(p, times[..start]).None? || !Live(After(p, times[..start]).value, times[start])
    decreases i
  {
    var now := times[..i + 1];
    assert now[..i] == times[..i];
    var b := After(p, times[..i]);
    CounterExpires(p, times[..i]);
    if b.None? || !Live(b.value, times[i]) {
      start := i;
    } else {
      start := WindowOf(p, times, i - 1);
    }
  }

  lemma {:induction false} WindowContinues(p: Policy, times: seq<Time>, start: nat, i: nat, k: nat)
    requires Ordered(times) && i <= k < |times| && InWindowOf(p, times, start, i)
    requires times[k] < times[start] + p.window
    ensures InWindowOf(p, times, start, k)
    decreases k
  {
    if i < k {
      WindowContinues(p, times, start, i, k - 1);
      assert times[..k + 1][..k] == times[..k];
    }
  }

  /** A denied call follows exactly `limit` admissions in its window, all less than one window old. Until that window
      ends, at most one window after the denial, further calls are denied; the first call after it is admitted. */
  lemma DenialIsJustifiedAndTemporary(p: Policy, times: seq<Time>, i: nat) returns (start: nat)
    requires Ordered(times) && p.window > 0 && i < |times| && !Admitted(p, times, i)
    ensures start + p.limit <= i && times[i] - p.window < times[start]
    ensures forall k :: start <= k <= i ==> (Admitted(p, times, k) <==> k < start + p.limit)
    ensures forall k :: i < k < |times| && times[k] < times[start] + p.window ==> !Admitted(p, times, k)
    ensures p.limit > 0 ==>
              forall k ::
                i < k < |times| && times[k - 1] < times[start] + p.window <= times[k] ==> Admitted(p, times, k)
  {
    start := WindowOf(p, times, i);
    forall k | i < k < |times| && times[k] < times[start] + p.window ensures !Admitted(p, times, k) {
      WindowContinues(p, times, start, i, k);
    }
    forall k | i < k < |times| && times[k - 1] < times[start] + p.window <= times[k] && p.limit > 0
      ensures Admitted(p, times, k)
    {
      WindowContinues(p, times, start, i, k - 1);
      assert times[..k] == times[..k - 1 + 1];
    }
  }

  // ----- A client within its allowance -----

  ghost function CallsIn(times: seq<Time>, lo: Time, hi: Time): nat {
    if times == [] then 0
    else CallsIn(times[..|times| - 1], lo, hi) + (if lo <= times[|times| - 1] < hi then 1 else 0)
  }

  /** At most `limit` calls in every half-open interval of one window. */
  ghost predicate Conforming(p: Policy, times: seq<Time>) {
    forall lo: Time, hi: Time :: hi == lo + p.window ==> CallsIn(times, lo, hi) <= p.limit
  }

  lemma {:induction false} CallsInAtLeast(times: seq<Time>, a: nat, b: nat, lo: Time, hi: Time)
    requires a <= b <= |times| && forall k :: a <= k < b ==> lo <= times[k] < hi
    ensures CallsIn(times, lo, hi) >= b - a
    decreases |times|
  {
    if times != [] {
      var n := |times| - 1;
      CallsInAtLeast(times[..n], if a <= n then a else n, if b <= n then b else n, lo, hi);
    }
  }

  lemma ConformingNeverDenied(p: Policy, times: seq<Time>, i: nat)
    requires Ordered(times) && p.window > 0 && Conforming(p, times) && i < |times|
    ensures Admitted(p, times, i)
  {
    if !Admitted(p, times, i) {
      var start := DenialIsJustifiedAndTemporary(p, times, i);
      CallsInAtLeast(times, start, i + 1, times[start], times[start] + p.window);
    }
  }

  // ----- Many keys -----

  ghost function StoreAfter(p: Policy, calls: seq<(LimitKey, Time)>): Store<LimitKey, nat> {
    if calls == [] then map[]
    else
      var m := StoreAfter(p, calls[..|calls| - 1]);
      var (key, t) := calls[|calls| - 1];
      m[key := Bump(p, Find(m, key), t)]
  }

  ghost function TimesOf(calls: seq<(LimitKey, Time)>, k: LimitKey): seq<Time> {
    if calls == [] then []
    else
      TimesOf(calls[..|calls| - 1], k) + (if calls[|calls| - 1].0 == k then [calls[|calls| - 1].1] else [])
  }

  /** However calls on different keys interleave, a key's counter depends on its own calls only. */
  lemma {:induction false} KeysAreIndependent(p: Policy, calls: seq<(LimitKey, Time)>, k: LimitKey)
    ensures Find(StoreAfter(p, calls), k) == After(p, TimesOf(calls, k))
  {
    if calls != [] {
      var n := |calls| - 1;
      KeysAreIndependent(p, calls[..n], k);
      var ts := TimesOf(calls[..n], k);
      if calls[n].0 == k {
        OneMoreCall(p, ts, calls[n].1, 0, 0);
      } else {
        assert TimesOf(calls, k) == ts;
      }
    }
  }
}
