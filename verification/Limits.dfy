/** The limiter inside the running system: a session's counter depends on its own messages alone. */
module Limits {
  import opened Model
  import opened TtlStore
  import opened RedisServer
  import opened Repository
  import opened Protocol
  import opened Frames
  import opened Effects
  import R = RateLimiting

  ghost predicate CallsOk(c: Config, now: Time, counters: Store<LimitKey, nat>, x: SessionId, q: Session) {
    && R.Ordered(q.calls) && (q.calls != [] ==> q.calls[|q.calls| - 1] <= now)
    && Find(counters, Connection(x)) == R.After(c.ws, q.calls)
  }

  ghost predicate Counted(c: Config, now: Time, counters: Store<LimitKey, nat>, sessions: map<SessionId, Session>) {
    && (forall x :: x in sessions ==> CallsOk(c, now, counters, x, sessions[x]))
    && (forall x :: x !in sessions ==> Connection(x) !in counters)
  }

  ghost predicate Inv(c: Config, s: State) {
    Counted(c, s.redis.now, s.redis.counters, s.sessions)
  }

  ghost predicate SameConnections(before: Store<LimitKey, nat>, after: Store<LimitKey, nat>) {
    forall x :: Find(after, Connection(x)) == Find(before, Connection(x))
  }

  lemma SameKeeps(c: Config, s: State, t: State)
    requires Inv(c, s) && SameConnections(s.redis.counters, t.redis.counters)
    requires t.sessions == s.sessions && s.redis.now <= t.redis.now
    ensures Inv(c, t)
  {
    forall x | x in t.sessions ensures CallsOk(c, t.redis.now, t.redis.counters, x, t.sessions[x]) {
      assert CallsOk(c, s.redis.now, s.redis.counters, x, s.sessions[x]);
    }
    hide R.After, R.Ordered;
    forall x | x !in t.sessions ensures Connection(x) !in t.redis.counters {
      assert Find(t.redis.counters, Connection(x)) == Find(s.redis.counters, Connection(x));
    }
  }

  /** A request counts against its caller's key only. */
  lemma AdvanceCounts(c: Config, s: State, r: RequestId, stamp: Time)
    requires r in s.requests
    ensures SameConnections(s.redis.counters, Advanced(c, s, r, stamp).redis.counters)
  {
    hide R.Bump, R.Admits, Insert, MarkLive, Publish;
    match s.requests[r].pc
    case Rating =>
    case Checking =>
    case Inserting =>
    case Marking(_) =>
    case Looking(_) =>
    case Probing(_, _) =>
    case Publishing(_, _) =>
    case Flagging(_, _) =>
    case Replied(_) =>
    case Failed =>
  }

  /** The step takes a client message. */
  ghost predicate Takes(q: Session, input: Input) {
    input.Receive? && q.pc.Serving?
  }

  lemma ActCounts(c: Config, s: State, x: SessionId, input: Input)
    requires SessionLive(s, x)
    ensures var q, t := s.sessions[x], Acted(c, s, x, input);
      t.redis.counters ==
      if Takes(q, input)
      then s.redis.counters[Connection(x) := R.Bump(c.ws, Find(s.redis.counters, Connection(x)), s.redis.now)]
      else s.redis.counters
  {
    hide R.Bump, R.Admits, GoStep, AfterBreak, AfterMessage;
  }

  lemma ActCalls(c: Config, s: State, x: SessionId, input: Input)
    requires SessionLive(s, x)
    ensures var q, t := s.sessions[x], Acted(c, s, x, input);
      x in t.sessions && t.sessions[x].calls == if Takes(q, input) then q.calls + [s.redis.now] else q.calls
  {
    ActEffects(c, s, x, input);
    hide Acted, RegistryAfterGo, StatusAfterGo;
  }

  /** One more hit at `now` on the session's key. */
  lemma OneMoreHit(c: Config, now: Time, counters: Store<LimitKey, nat>, x: SessionId, q: Session, q': Session)
    requires CallsOk(c, now, counters, x, q) && q'.calls == q.calls + [now]
    ensures CallsOk(c, now, counters[Connection(x) := R.Bump(c.ws, Find(counters, Connection(x)), now)], x, q')
  {
    R.OneMoreCall(c.ws, q.calls, now, 0, 0);
    hide R.After, R.Bump;
  }

  /** Another session's counter is not touched. */
  lemma OtherCallsKept(
    c: Config, now: Time, before: Store<LimitKey, nat>, after: Store<LimitKey, nat>, x: SessionId, y: SessionId,
    q: Session)
    requires CallsOk(c, now, before, y, q) && y != x
    requires after == before || (Connection(x) in after && after == before[Connection(x) := after[Connection(x)]])
    ensures CallsOk(c, now, after, y, q)
  {
    hide R.After, R.Ordered;
  }

  lemma ActCallsKept(c: Config, s: State, x: SessionId, input: Input, y: SessionId)
    requires Inv(c, s) && SessionLive(s, x) && y in Acted(c, s, x, input).sessions
    ensures var t := Acted(c, s, x, input); CallsOk(c, t.redis.now, t.redis.counters, y, t.sessions[y])
  {
    ActFrame(c, s, x, input);
    ActCounts(c, s, x, input);
    ActCalls(c, s, x, input);
    var q, t := s.sessions[x], Acted(c, s, x, input);
    assert CallsOk(c, s.redis.now, s.redis.counters, y, s.sessions[y]);
    hide Acted, R.After, R.Bump, R.Ordered, OnlyReads, Inv;
    if y != x {
      OtherCallsKept(c, s.redis.now, s.redis.counters, t.redis.counters, x, y, s.sessions[y]);
    } else if Takes(q, input) {
      OneMoreHit(c, s.redis.now, s.redis.counters, x, q, t.sessions[x]);
    }
  }

  lemma ActKeeps(c: Config, s: State, x: SessionId, input: Input)
    requires Inv(c, s) && SessionLive(s, x)
    ensures Inv(c, Acted(c, s, x, input))
  {
    ActFrame(c, s, x, input);
    ActCounts(c, s, x, input);
    var t := Acted(c, s, x, input);
    hide Acted, R.Bump, OnlyReads, CallsOk;
    forall y | y in t.sessions ensures CallsOk(c, t.redis.now, t.redis.counters, y, t.sessions[y]) {
      ActCallsKept(c, s, x, input, y);
    }
  }

  lemma ConnectKeeps(c: Config, s: State, x: SessionId, q: Session)
    requires Inv(c, s) && x !in s.sessions && q.calls == []
    ensures Inv(c, s.(sessions := s.sessions[x := q]))
  {
    var t := s.(sessions := s.sessions[x := q]);
    forall y | y in t.sessions ensures CallsOk(c, t.redis.now, t.redis.counters, y, t.sessions[y]) {
      if y != x { assert CallsOk(c, s.redis.now, s.redis.counters, y, s.sessions[y]); }
    }
  }

  lemma StepKeeps(c: Config, s: State, step: Step)
    requires Inv(c, s)
    ensures Inv(c, Apply(c, s, step))
  {
    match step
    case Act(x, input) =>
      ApplyAct(c, s, x, input);
      hide *;
      if SessionLive(s, x) { ActKeeps(c, s, x, input); }
    case Connect(x, i, ticket) =>
      if x !in s.sessions && IsRunning(s, i) { ConnectKeeps(c, s, x, NewSession(i, s.instances[i].epoch, ticket)); }
      hide Inv;
    case Advance(r, stamp) =>
      ApplyAdvance(c, s, r, stamp);
      hide Inv, Apply;
      if RequestLive(s, r) {
        AdvanceFrame(c, s, r, stamp);
        AdvanceCounts(c, s, r, stamp);
        hide Advanced, SameConnections;
        SameKeeps(c, s, Advanced(c, s, r, stamp));
      }
    case _ => RestKeeps(c, s, step); hide Apply, Inv;
  }

  lemma RestKeeps(c: Config, s: State, step: Step)
    requires Inv(c, s) && !step.Act? && !step.Connect? && !step.Advance?
    ensures Inv(c, Apply(c, s, step))
  {
    hide Inv;
    if OfWire(step) { WireFrame(c, s, step); hide Apply; }
    else if OfInstance(step) { InstanceFrame(c, s, step); hide Apply; }
    SameKeeps(c, s, Apply(c, s, step));
  }

  lemma {:induction false} Always(c: Config, steps: seq<Step>)
    ensures Inv(c, Exec(c, INIT, steps))
  {
    if steps != [] {
      Always(c, steps[..|steps| - 1]);
      StepKeeps(c, Exec(c, INIT, steps[..|steps| - 1]), steps[|steps| - 1]);
    }
  }

  /** In every run a session handles a message exactly when the message is admitted in the sequence of the session's own
      messages, and then each kind leads to its own command: a heartbeat to the refreshes, a presence update to the
      status it names, a receipt to the notification it names, read now. Otherwise the session just waits on. */
  lemma MessageHandledIff(c: Config, s: State, x: SessionId, message: ClientMessage)
    requires Reachable(c, s) && SessionLive(s, x) && s.sessions[x].pc.Serving?
    ensures var q, q' := s.sessions[x], Apply(c, s, Act(x, Receive(message))).sessions[x];
      && q'.calls == q.calls + [s.redis.now] && R.Ordered(q'.calls)
      && q'.pc == if !R.Admitted(c.ws, q'.calls, |q.calls|) then Serving
           else match message
             case HeartbeatMessage => Beating
             case PresenceMessage(st) => Updating(st)
             case ReceiptMessage(n) => Receipting(n, s.redis.now)
             case OtherMessage => Serving
  {
    var steps :| s == Exec(c, INIT, steps);
    var q := s.sessions[x];
    Always(c, steps);
    hide Exec;
    assert CallsOk(c, s.redis.now, s.redis.counters, x, q);
    assert (q.calls + [s.redis.now])[..|q.calls|] == q.calls;
    hide R.After, R.Bump;
  }

  /** However the rest of the system runs, a client that keeps to `limit` messages in every half-open window has its
      next message handled, not dropped. */
  lemma ConformingClientsAreNeverLimited(c: Config, s: State, x: SessionId, message: ClientMessage)
    requires c.ws.window > 0 && Reachable(c, s)
    requires SessionLive(s, x) && s.sessions[x].pc.Serving? && R.Conforming(c.ws, s.sessions[x].calls + [s.redis.now])
    ensures Apply(c, s, Act(x, Receive(message))).sessions[x].pc == AfterMessage(message, s.redis.now)
  {
    var steps :| s == Exec(c, INIT, steps);
    var q := s.sessions[x];
    Always(c, steps);
    hide Exec;
    assert CallsOk(c, s.redis.now, s.redis.counters, x, q);
    var calls := q.calls + [s.redis.now];
    R.ConformingNeverDenied(c.ws, calls, |q.calls|);
    assert calls[..|q.calls|] == q.calls;
  }
}
