/** POST requests count against their caller: what the limiter has answered, in every run. Each request asks once, and
    is let through or turned away as the sequence of its caller's calls says. */
module Callers {
  import opened Model
  import opened TtlStore
  import opened RedisServer
  import opened Repository
  import opened Protocol
  import opened Frames
  import Lim = Limits
  import R = RateLimiting

  /** Request `r` asked the limiter at this time. */
  datatype Rated = Rated(r: RequestId, at: Time)

  /** The step is the first command of a request of this caller. */
  ghost predicate Rates(s: State, step: Step, h: string) {
    && step.Advance? && RequestLive(s, step.r)
    && s.requests[step.r].pc.Rating? && s.requests[step.r].caller == h
  }

  /** The requests of one caller that asked the limiter, in the order of the run. */
  ghost function RatedBy(c: Config, steps: seq<Step>, h: string): seq<Rated> {
    if steps == [] then []
    else
      var n := |steps| - 1;
      RatedBy(c, steps[..n], h) + More(Exec(c, INIT, steps[..n]), steps[n], h)
  }

  ghost function More(s: State, step: Step, h: string): seq<Rated> {
    if Rates(s, step, h) then [Rated(step.r, s.redis.now)] else []
  }

  ghost function Times(log: seq<Rated>): (times: seq<Time>)
    ensures |times| == |log|
  {
    seq(|log|, k requires 0 <= k < |log| => log[k].at)
  }

  /** The key's counter, and nothing else, is what these calls left. */
  ghost predicate CounterOk(c: Config, now: Time, counters: Store<LimitKey, nat>, h: string, log: seq<Rated>) {
    && R.Ordered(Times(log)) && (log != [] ==> log[|log| - 1].at <= now)
    && Find(counters, Caller(h)) == R.After(c.api, Times(log))
  }

  /** Call `i` is this request's, and was admitted or not. */
  ghost predicate Answered(c: Config, log: seq<Rated>, r: RequestId, i: nat, admitted: bool) {
    i < |log| && log[i].r == r && R.Admitted(c.api, Times(log), i) == admitted
  }

  ghost predicate Told(c: Config, log: seq<Rated>, r: RequestId, admitted: bool) {
    exists i: nat :: Answered(c, log, r, i, admitted)
  }

  /** A request that has not asked is not in the log; one that has is there once and went the way it was told to. */
  ghost predicate RequestOk(c: Config, log: seq<Rated>, r: RequestId, q: Request) {
    && (q.pc.Rating? ==> forall i :: 0 <= i < |log| ==> log[i].r != r)
    && (!q.pc.Rating? && !q.pc.Failed? ==> Told(c, log, r, q.pc != Replied(TooManyRequests)))
  }

  ghost predicate OnceEach(log: seq<Rated>, requests: map<RequestId, Request>) {
    && (forall i, j :: 0 <= i < j < |log| ==> log[i].r != log[j].r)
    && (forall i :: 0 <= i < |log| ==> log[i].r in requests)
  }

  ghost predicate InvOf(c: Config, s: State, h: string, log: seq<Rated>) {
    && CounterOk(c, s.redis.now, s.redis.counters, h, log)
    && OnceEach(log, s.requests)
    && forall r :: r in s.requests && s.requests[r].caller == h ==> RequestOk(c, log, r, s.requests[r])
  }

  // ----- One command of a request -----

  /** What a command does to the counters, and where it leads; only the first one asks the limiter. */
  lemma PostCounts(c: Config, redis: RedisState, db: Database, q: Request, stamp: Time)
    ensures var (redis', _, q') := PostStep(c, redis, db, q, stamp);
      && q'.caller == q.caller
      && (q.pc.Rating? ==>
            var b := Find(redis.counters, Caller(q.caller));
            && redis'.counters == redis.counters[Caller(q.caller) := R.Bump(c.api, b, redis.now)]
            && !q'.pc.Rating? && !q'.pc.Failed?
               && (q'.pc == Replied(TooManyRequests) <==> !R.Admits(c.api, b, redis.now)))
      && (!q.pc.Rating? ==>
            && redis'.counters == redis.counters && !q'.pc.Rating? && (q'.pc.Failed? ==> q.pc.Failed?)
            && (q'.pc == Replied(TooManyRequests) <==> q.pc == Replied(TooManyRequests))
            && (q.pc.Failed? ==> q'.pc.Failed?))
  {
    hide R.Bump, R.Admits, Insert, MarkLive, Publish;
    match q.pc
    case Rating =>
    case Checking =>
    case Inserting =>
    case Marking(_) =>
    case Looking(_) =>
    case Probing(_, _) =>
    case Publishing(_, _) =>
    case Flagging(_, _) =>
    case Replied(_) =>
    case Failed =>
  }

  lemma TimesMore(log: seq<Rated>, e: Rated)
    ensures Times(log + [e]) == Times(log) + [e.at]
  {}

  /** One more call, by the request's own command. */
  lemma CountedOnce(c: Config, now: Time, counters: Store<LimitKey, nat>, h: string, log: seq<Rated>, r: RequestId)
    requires CounterOk(c, now, counters, h, log)
    ensures var b := Find(counters, Caller(h));
      && CounterOk(c, now, counters[Caller(h) := R.Bump(c.api, b, now)], h, log + [Rated(r, now)])
      && Answered(c, log + [Rated(r, now)], r, |log|, R.Admits(c.api, b, now))
  {
    TimesMore(log, Rated(r, now));
    R.OneMoreCall(c.api, Times(log), now, 0, 0);
    assert (Times(log) + [now])[..|log|] == Times(log);
    hide R.After, R.Bump, R.Admits;
  }

  lemma AnsweredStays(c: Config, log: seq<Rated>, e: Rated, r: RequestId, i: nat, admitted: bool)
    requires Answered(c, log, r, i, admitted)
    ensures Answered(c, log + [e], r, i, admitted)
  {
    TimesMore(log, e);
    assert (Times(log) + [e.at])[..i] == Times(log)[..i];
    hide R.After, R.Admits;
  }

  lemma OthersStay(c: Config, log: seq<Rated>, e: Rated, r: RequestId, q: Request)
    requires RequestOk(c, log, r, q) && e.r != r
    ensures RequestOk(c, log + [e], r, q)
  {
    var admitted := q.pc != Replied(TooManyRequests);
    if !q.pc.Rating? && !q.pc.Failed? {
      assert Told(c, log, r, admitted);
      var i: nat :| Answered(c, log, r, i, admitted);
      AnsweredStays(c, log, e, r, i, admitted);
    }
    hide Answered;
  }

  /** The first command of request `r` of caller `h`. */
  lemma RatingKeeps(c: Config, s: State, r: RequestId, stamp: Time, log: seq<Rated>)
    requires r in s.requests && s.requests[r].pc.Rating? && InvOf(c, s, s.requests[r].caller, log)
    ensures InvOf(c, Advanced(c, s, r, stamp), s.requests[r].caller, log + [Rated(r, s.redis.now)])
  {
    var q, t := s.requests[r], Advanced(c, s, r, stamp);
    var h, all := q.caller, log + [Rated(r, s.redis.now)];
    PostCounts(c, s.redis, s.db, q, stamp);
    AdvanceFrame(c, s, r, stamp);
    assert t.requests == s.requests[r := t.requests[r]] && t.requests[r].caller == h;
    CountedOnce(c, s.redis.now, s.redis.counters, h, log, r);
    assert RequestOk(c, log, r, q);
    hide PostStep, CounterOk, R.Bump, R.Admits, Answered;
    forall r' | r' in t.requests && t.requests[r'].caller == h ensures RequestOk(c, all, r', t.requests[r']) {
      if r' != r { OthersStay(c, log, Rated(r, s.redis.now), r', s.requests[r']); }
    }
  }

  /** A command that is not a first one, or is another caller's. */
  lemma QuietKeeps(c: Config, s: State, r: RequestId, stamp: Time, h: string, log: seq<Rated>)
    requires r in s.requests && InvOf(c, s, h, log) && !(s.requests[r].pc.Rating? && s.requests[r].caller == h)
    ensures InvOf(c, Advanced(c, s, r, stamp), h, log)
  {
    var q, t := s.requests[r], Advanced(c, s, r, stamp);
    PostCounts(c, s.redis, s.db, q, stamp);
    AdvanceFrame(c, s, r, stamp);
    assert t.requests == s.requests[r := t.requests[r]] && t.requests[r].caller == q.caller;
    hide PostStep, R.Bump, R.Admits, R.After, R.Ordered, Answered;
    if q.caller == h { assert RequestOk(c, log, r, q); }
  }

  // ----- All steps -----

  /** Steps that are no request's command keep the counters of callers, and requests at most start or fail. */
  lemma RestCounts(c: Config, s: State, step: Step)
    requires !step.Advance?
    ensures var t := Apply(c, s, step); s.redis.now <= t.redis.now && SameCallers(s.redis.counters, t.redis.counters)
  {
    if step.Act? {
      ApplyAct(c, s, step.x, step.input);
      if SessionLive(s, step.x) {
        ActFrame(c, s, step.x, step.input);
        Lim.ActCounts(c, s, step.x, step.input);
      }
      hide Apply, Acted, R.Bump;
    } else if OfWire(step) {
      WireFrame(c, s, step);
      hide Apply;
    } else if OfInstance(step) {
      InstanceFrame(c, s, step);
      hide Apply;
    }
  }

  ghost predicate SameCallers(before: Store<LimitKey, nat>, after: Store<LimitKey, nat>) {
    forall h :: Find(after, Caller(h)) == Find(before, Caller(h))
  }

  lemma RestRequests(c: Config, s: State, step: Step)
    requires !step.Advance?
    ensures var t := Apply(c, s, step);
      && (forall r :: r in s.requests ==> r in t.requests)
      && forall r :: r in t.requests ==>
           if r in s.requests
           then t.requests[r] == s.requests[r] ||
             (t.requests[r].pc.Failed? && t.requests[r].caller == s.requests[r].caller)
           else t.requests[r].pc.Rating?
  {
    if step.Post? || step.FailRequest? { return; }
    if step.Act? {
      ApplyAct(c, s, step.x, step.input);
      hide Apply;
      if SessionLive(s, step.x) { ActFrame(c, s, step.x, step.input); }
      hide Acted;
    } else {
      RestFrame(c, s, step);
      hide Apply;
    }
  }

  lemma RestKeeps(c: Config, s: State, step: Step, h: string, log: seq<Rated>)
    requires !step.Advance? && InvOf(c, s, h, log)
    ensures InvOf(c, Apply(c, s, step), h, log)
  {
    RestCounts(c, s, step);
    RestRequests(c, s, step);
    hide Apply, R.After, R.Ordered, Answered;
    var t := Apply(c, s, step);
    forall r | r in t.requests && t.requests[r].caller == h ensures RequestOk(c, log, r, t.requests[r]) {
      if r in s.requests { assert s.requests[r].caller == h ==> RequestOk(c, log, r, s.requests[r]); }
    }
  }

  lemma StepKeeps(c: Config, s: State, step: Step, h: string, log: seq<Rated>)
    requires InvOf(c, s, h, log)
    ensures InvOf(c, Apply(c, s, step), h, log + More(s, step, h))
  {
    assert log + [] == log;
    if step.Advance? {
      ApplyAdvance(c, s, step.r, step.stamp);
      hide Apply, Advanced, InvOf;
      if Rates(s, step, h) {
        RatingKeeps(c, s, step.r, step.stamp, log);
      } else if RequestLive(s, step.r) {
        QuietKeeps(c, s, step.r, step.stamp, h, log);
      }
    } else {
      RestKeeps(c, s, step, h, log);
      hide Apply, InvOf;
    }
  }

  /** In every run a caller's counter is what the limiter keeps after the calls of that caller's requests, one each. */
  lemma {:induction false} Always(c: Config, steps: seq<Step>, h: string)
    ensures InvOf(c, Exec(c, INIT, steps), h, RatedBy(c, steps, h))
  {
    if steps != [] {
      var n := |steps| - 1;
      Always(c, steps[..n], h);
      hide InvOf, Apply, More;
      StepKeeps(c, Exec(c, INIT, steps[..n]), steps[n], h, RatedBy(c, steps[..n], h));
    }
  }

  // ----- What callers see -----

  /** In every run: a request that has got past the limiter, or was answered 429, asked it exactly once, and it got past
      exactly when its call is admitted in the sequence of all calls of its caller. */
  lemma RequestsAreLimited(c: Config, steps: seq<Step>, s: State, r: RequestId) returns (i: nat)
    requires s == Exec(c, INIT, steps) && r in s.requests && !s.requests[r].pc.Rating? && !s.requests[r].pc.Failed?
    ensures var log := RatedBy(c, steps, s.requests[r].caller);
      && i < |log| && log[i].r == r && (forall j :: 0 <= j < |log| && log[j].r == r ==> j == i)
      && R.Ordered(Times(log))
      && (R.Admitted(c.api, Times(log), i) <==> s.requests[r].pc != Replied(TooManyRequests))
  {
    var q := s.requests[r];
    var log := RatedBy(c, steps, q.caller);
    Always(c, steps, q.caller);
    assert RequestOk(c, log, r, q);
    hide Exec, RatedBy, R.Admitted, R.Ordered;
    i :| Answered(c, log, r, i, q.pc != Replied(TooManyRequests));
    hide RequestOk, CounterOk;
  }

  /** A 429 follows `limit` requests of the same caller that were let through less than a window before. */
  lemma TooManyMeansTooMany(c: Config, steps: seq<Step>, s: State, r: RequestId) returns (i: nat, start: nat)
    requires s == Exec(c, INIT, steps) && r in s.requests && s.requests[r].pc == Replied(TooManyRequests)
      && c.api.window > 0
    ensures var log := RatedBy(c, steps, s.requests[r].caller);
      && start + c.api.limit <= i < |log| && log[i].r == r && log[i].at - c.api.window < log[start].at
      && forall k :: start <= k <= i ==> (R.Admitted(c.api, Times(log), k) <==> k < start + c.api.limit)
  {
    i := RequestsAreLimited(c, steps, s, r);
    hide Exec, RatedBy, R.Admitted;
    start := R.DenialIsJustifiedAndTemporary(c.api, Times(RatedBy(c, steps, s.requests[r].caller)), i);
  }
}
