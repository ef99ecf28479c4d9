/** What a client has to do to stay reachable: keep to the message limit and send heartbeats less than a TTL apart, in
    a session that overlaps with no other and whose heartbeats are handled in time. */
module Clients {
  import opened Model
  import opened TtlStore
  import opened RedisServer
  import opened Registry
  import opened Protocol
  import opened Frames
  import opened Effects
  import opened Processes
  import opened Reachability
  import Lim = Limits
  import D = Repository
  import R = RateLimiting
  import S = Snapshots
  import T = Tickets

  // ----- The client's part and the platform's part -----

  /** From the registration to the first heartbeat, between heartbeats, and up to now: never more than `gap`. */
  ghost predicate Steady(beats: seq<Time>, now: Time, gap: nat) {
    && (forall k :: 0 <= k < |beats| - 1 ==> beats[k + 1] <= beats[k] + gap)
    && (beats != [] ==> now <= beats[|beats| - 1] + gap)
  }

  ghost predicate Behaves(c: Config, q: Session, now: Time, gap: nat) {
    R.Conforming(c.ws, q.calls) && Steady(q.beats, now, gap)
  }

  /** The two refreshes of a heartbeat are over within `lag` of its arrival. */
  ghost predicate Undelayed(s: State, x: SessionId, lag: nat) {
    SessionLive(s, x) && (s.sessions[x].pc.Beating? || s.sessions[x].pc.Refreshing?) && s.sessions[x].beats != [] ==>
      s.redis.now <= s.sessions[x].beats[|s.sessions[x].beats| - 1] + lag
  }

  /** The state is reached without overlap and without longer delays. */
  ghost predicate ReachedPromptly(c: Config, s: State, x: SessionId, u: UserId, lag: nat) {
    exists steps :: s == Exec(c, INIT, steps) && PromptRun(c, steps, x, u, lag)
  }

  ghost predicate PromptRun(c: Config, steps: seq<Step>, x: SessionId, u: UserId, lag: nat) {
    NoOverlapRun(c, steps, x, u) && forall k :: 0 <= k <= |steps| ==> Undelayed(At(c, steps, k), x, lag)
  }

  // ----- What follows about the refreshes -----

  /** Both refreshes of every heartbeat but the one at hand have been effective. */
  ghost predicate Fresh(q: Session, now: Time) {
    q.beats != [] &&
    var n := |q.beats|;
    var last := q.beats[n - 1];
    last <= now &&
    match q.pc
    case GoingOnline => q.registeredAt >= last
    case Beating => n >= 2 && q.registeredAt >= q.beats[n - 2] && q.keptAt >= q.beats[n - 2]
    case Refreshing => n >= 2 && q.registeredAt >= q.beats[n - 2] && q.keptAt >= last
    case _ => q.registeredAt >= last && q.keptAt >= last
  }

  ghost predicate Inv(c: Config, s: State, x: SessionId, u: UserId, gap: nat) {
    SessionLive(s, x) && s.sessions[x].who == Some(u) && Connected(s.sessions[x].pc)
      && Behaves(c, s.sessions[x], s.redis.now, gap)
    ==> Fresh(s.sessions[x], s.redis.now)
  }

  lemma {:induction false} FewerCalls(calls: seq<Time>, t: Time, lo: Time, hi: Time)
    ensures R.CallsIn(calls, lo, hi) <= R.CallsIn(calls + [t], lo, hi)
  {
    assert (calls + [t])[..|calls|] == calls;
  }

  lemma ConformingBefore(p: R.Policy, calls: seq<Time>, t: Time)
    requires R.Conforming(p, calls + [t])
    ensures R.Conforming(p, calls)
  {
    forall lo: Time, hi: Time | hi == lo + p.window ensures R.CallsIn(calls, lo, hi) <= p.limit {
      FewerCalls(calls, t, lo, hi);
      assert R.CallsIn(calls + [t], lo, hi) <= p.limit;
    }
    hide R.CallsIn;
  }

  lemma SteadyBefore(beats: seq<Time>, t: Time, gap: nat)
    requires Steady(beats + [t], t, gap)
    ensures Steady(beats, t, gap)
  {
    var all := beats + [t];
    if beats != [] { assert all[|beats|] <= all[|beats| - 1] + gap; }
    forall k | 0 <= k < |beats| - 1 ensures beats[k + 1] <= beats[k] + gap {
      assert all[k + 1] <= all[k] + gap;
    }
  }

  // ----- The session's own steps -----

  /** The session's keys are what it last set and refreshed. */
  ghost predicate Keys(c: Config, d: Directory, q: Session, u: UserId) {
    EntryOk(c, d.registry, q, u) && StatusOk(c, d.status, q, u)
  }

  lemma GoFresh(
    c: Config, redis: RedisState, db: D.Database, x: SessionId, q: Session, q': Session, u: UserId, gap: nat, lag: nat)
    requires Moves(c, redis, db, x, q, Go, q') && !q.pc.Redeeming? && q.who == Some(u) && Connected(q'.pc)
    requires Connected(q.pc) ==> Fresh(q, redis.now)
    requires Keys(c, redis.directory, q, u) && Steady(q.beats, redis.now, gap) && gap + lag < c.presenceTtl
    requires (q.pc.Beating? || q.pc.Refreshing?) && q.beats != [] ==> redis.now <= q.beats[|q.beats| - 1] + lag
    ensures Fresh(q', redis.now)
  {
    PcCases(q.pc);
    if q.pc.Beating? {
      assert q.beats[|q.beats| - 1] <= q.beats[|q.beats| - 2] + gap;
      assert Exists(redis.directory.status, redis.now, u);
    } else if q.pc.Refreshing? {
      assert q.beats[|q.beats| - 1] <= q.beats[|q.beats| - 2] + gap;
      assert Exists(redis.directory.registry, redis.now, u);
    }
  }

  /** A heartbeat of a conforming client passes the limiter. */
  lemma TakeFresh(c: Config, redis: RedisState, x: SessionId, q: Session, message: ClientMessage)
    requires q.pc.Serving? && Fresh(q, redis.now) && c.ws.window > 0
    requires Lim.CallsOk(c, redis.now, redis.counters, x, q)
      && R.Conforming(c.ws, TakeMessage(c, redis, x, q, message).1.calls)
    ensures Fresh(TakeMessage(c, redis, x, q, message).1, redis.now)
  {
    var calls := q.calls + [redis.now];
    R.ConformingNeverDenied(c.ws, calls, |q.calls|);
    assert calls[..|q.calls|] == q.calls;
    hide R.Conforming, R.After, R.Bump;
    match message
    case HeartbeatMessage =>
    case PresenceMessage(_) =>
    case ReceiptMessage(_) =>
    case OtherMessage =>
  }

  lemma OwnFresh(
    c: Config, redis: RedisState, db: D.Database, x: SessionId, q: Session, input: Input, q': Session, u: UserId,
    gap: nat, lag: nat)
    requires Moves(c, redis, db, x, q, input, q') && !T.Redeems(q, input) && q.who == Some(u) && Connected(q'.pc)
    requires Connected(q.pc) && Behaves(c, q, redis.now, gap) ==> Fresh(q, redis.now)
    requires Keys(c, redis.directory, q, u) && Behaves(c, q', redis.now, gap) && gap + lag < c.presenceTtl
      && c.ws.window > 0
    requires Lim.CallsOk(c, redis.now, redis.counters, x, q)
    requires (q.pc.Beating? || q.pc.Refreshing?) && q.beats != [] ==> redis.now <= q.beats[|q.beats| - 1] + lag
    ensures Fresh(q', redis.now)
  {
    match input
    case Break => hide Keys, Lim.CallsOk, R.Conforming; BrokenIsNotConnected(q.pc);
    case Go =>
      if q.pc.Registering? {
        hide Keys, Lim.CallsOk, R.Conforming;
      } else {
        assert q'.beats == q.beats && q'.calls == q.calls;
        GoFresh(c, redis, db, x, q, q', u, gap, lag);
      }
    case Page(_) => hide Keys, Lim.CallsOk, R.Conforming, D.IsPage, D.UnreadOf;
    case Receive(message) =>
      if q.pc.Serving? {
        ConformingBefore(c.ws, q.calls, redis.now);
        if message.HeartbeatMessage? { SteadyBefore(q.beats, redis.now, gap); }
        TakeFresh(c, redis, x, q, message);
      }
      hide Keys, Lim.CallsOk, R.Conforming, Fresh, Steady, AfterMessage;
    case HangUp => hide Keys, Lim.CallsOk, R.Conforming;
  }

  lemma BrokenIsNotConnected(pc: SessionPc)
    ensures !Connected(AfterBreak(pc))
  {}

  lemma OwnStep(c: Config, s: State, x: SessionId, input: Input, u: UserId, gap: nat, lag: nat)
    requires Inv(c, s, x, u, gap) && Held(c, s, x, u) && Lim.Inv(c, s) && Undelayed(s, x, lag)
    requires SessionLive(s, x) && gap + lag < c.presenceTtl && c.ws.window > 0
    ensures Inv(c, Acted(c, s, x, input), x, u, gap)
  {
    var q, t := s.sessions[x], Acted(c, s, x, input);
    ActFrame(c, s, x, input);
    ActEffects(c, s, x, input);
    var q' := t.sessions[x];
    assert Lim.CallsOk(c, s.redis.now, s.redis.counters, x, q);
    if T.Redeems(q, input) {
      assert !Connected(q'.pc);
      return;
    }
    T.ActIdentity(c, s, x, input);
    hide Acted, Moves, Lim.Inv, Lim.CallsOk, Fresh, Behaves, EntryOk, StatusOk, SocketOk, Connected, RegistryAfterGo,
      StatusAfterGo;
    if q.who == Some(u) && Connected(q'.pc) && Behaves(c, q', s.redis.now, gap) {
      OwnFresh(c, s.redis, s.db, x, q, input, q', u, gap, lag);
    }
  }

  /** The session does nothing, and no earlier moment was worse for the client. */
  lemma SameKeeps(c: Config, s: State, t: State, x: SessionId, u: UserId, gap: nat)
    requires Inv(c, s, x, u, gap) && s.redis.now <= t.redis.now
    requires SessionLive(t, x) ==> (SessionLive(s, x) && t.sessions[x] == s.sessions[x]) || !Connected(t.sessions[x].pc)
    ensures Inv(c, t, x, u, gap)
  {
    if SessionLive(t, x) && Connected(t.sessions[x].pc) {
      FreshLater(s.sessions[x], s.redis.now, t.redis.now);
    }
    hide Fresh, Connected, R.Conforming;
  }

  lemma FreshLater(q: Session, now: Time, later: Time)
    requires now <= later
    ensures Fresh(q, now) ==> Fresh(q, later)
  {}

  lemma TimeGoesOn(c: Config, s: State, step: Step)
    ensures s.redis.now <= Apply(c, s, step).redis.now
  {
    match step
    case Advance(r, stamp) => if RequestLive(s, r) { AdvanceFrame(c, s, r, stamp); hide Advanced; }
    case Act(x, input) => if SessionLive(s, x) { ActFrame(c, s, x, input); hide Acted; }
    case _ =>
      if OfWire(step) { WireFrame(c, s, step); hide Apply; }
      else if OfInstance(step) { InstanceFrame(c, s, step); hide Apply; }
  }

  lemma StepKeeps(c: Config, s: State, step: Step, x: SessionId, u: UserId, gap: nat, lag: nat)
    requires Inv(c, s, x, u, gap) && Held(c, s, x, u) && Lim.Inv(c, s) && Undelayed(s, x, lag)
      && Placed(s.sessions, s.instances)
    requires gap + lag < c.presenceTtl && c.ws.window > 0
    ensures Inv(c, Apply(c, s, step), x, u, gap)
  {
    var t := Apply(c, s, step);
    if step.Act? && step.x == x && SessionLive(s, x) {
      OwnStep(c, s, x, step.input, u, gap, lag);
      hide Acted, Inv;
      return;
    }
    S.SessionsMove(c, s, step);
    TimeGoesOn(c, s, step);
    if x in s.sessions { LiveBefore(c, s, step, x); }
    assert x in t.sessions && x !in s.sessions ==> !Connected(t.sessions[x].pc);
    hide Apply, Inv, Held, Lim.Inv, Connected;
    SameKeeps(c, s, t, x, u, gap);
  }

  lemma PromptBefore(c: Config, steps: seq<Step>, x: SessionId, u: UserId, lag: nat)
    requires PromptRun(c, steps, x, u, lag) && steps != []
    ensures PromptRun(c, steps[..|steps| - 1], x, u, lag)
    ensures Undelayed(Exec(c, INIT, steps[..|steps| - 1]), x, lag)
  {
    var before := steps[..|steps| - 1];
    AloneBefore(c, steps, x, u);
    hide NoOverlapRun;
    forall k | 0 <= k <= |before| ensures Undelayed(At(c, before, k), x, lag) {
      assert steps[..k] == before[..k];
      assert Undelayed(At(c, steps, k), x, lag);
    }
    assert before[..|before|] == before;
    assert Undelayed(At(c, before, |before|), x, lag);
  }

  lemma {:induction false} Always(c: Config, steps: seq<Step>, x: SessionId, u: UserId, gap: nat, lag: nat)
    requires PromptRun(c, steps, x, u, lag) && gap + lag < c.presenceTtl && c.ws.window > 0
    ensures Inv(c, Exec(c, INIT, steps), x, u, gap)
  {
    if steps == [] { return; }
    var n := |steps| - 1;
    var before := steps[..n];
    PromptBefore(c, steps, x, u, lag);
    Always(c, before, x, u, gap, lag);
    Reachability.Always(c, before, x, u);
    Lim.Always(c, before);
    Processes.Always(c, before);
    assert Exec(c, INIT, steps) == Apply(c, Exec(c, INIT, before), steps[n]);
    hide Exec, Apply, PromptRun, NoOverlapRun, Inv, Held, Lim.Inv, Placed, Undelayed;
    StepKeeps(c, Exec(c, INIT, before), steps[n], x, u, gap, lag);
  }

  // ----- The theorem -----

  lemma FreshIsRecent(c: Config, q: Session, now: Time, gap: nat, lag: nat)
    requires Fresh(q, now) && Steady(q.beats, now, gap) && gap + lag < c.presenceTtl
    requires q.pc.Beating? || q.pc.Refreshing? ==> now <= q.beats[|q.beats| - 1] + lag
    ensures now < q.registeredAt + c.presenceTtl
    ensures !q.pc.GoingOnline? ==> now < q.keptAt + c.presenceTtl
  {
    if q.pc.Beating? || q.pc.Refreshing? {
      assert q.beats[|q.beats| - 1] <= q.beats[|q.beats| - 2] + gap;
    }
  }

  /** The only session of a user, whose client sends at most `limit` messages in every half-open window and never
      waits longer than `gap` with its next heartbeat, on a platform that handles a heartbeat within `lag`, where
      together these stay below the TTL: none of its messages was ever denied, the user is routable to the session's
      instance, and from its first status on it is not shown offline. */
  lemma ConformingClientsStayReachable(c: Config, s: State, x: SessionId, u: UserId, gap: nat, lag: nat)
    requires ReachedPromptly(c, s, x, u, lag) && gap + lag < c.presenceTtl && c.ws.window > 0
    requires SessionLive(s, x) && s.sessions[x].who == Some(u) && Connected(s.sessions[x].pc)
    requires Behaves(c, s.sessions[x], s.redis.now, gap)
    ensures var q := s.sessions[x];
      && (forall i: nat :: i < |q.calls| ==> R.Admitted(c.ws, q.calls, i))
      && Lookup(s.redis, u) == Some(q.inst)
      && (!q.pc.GoingOnline? ==> Get(s.redis.directory.status, s.redis.now, u).Some?)
  {
    var q := s.sessions[x];
    ReachedFresh(c, s, x, u, gap, lag);
    NeverDenied(c, s, x, u, lag);
    RoutableAndPresentIff(c, s, x, u);
    hide *;
  }

  lemma NeverDenied(c: Config, s: State, x: SessionId, u: UserId, lag: nat)
    requires ReachedPromptly(c, s, x, u, lag) && c.ws.window > 0 && x in s.sessions
      && R.Conforming(c.ws, s.sessions[x].calls)
    ensures forall i: nat :: i < |s.sessions[x].calls| ==> R.Admitted(c.ws, s.sessions[x].calls, i)
  {
    var steps :| s == Exec(c, INIT, steps) && PromptRun(c, steps, x, u, lag);
    Lim.Always(c, steps);
    assert Lim.CallsOk(c, s.redis.now, s.redis.counters, x, s.sessions[x]);
    var calls := s.sessions[x].calls;
    assert R.Ordered(calls);
    hide *;
    forall i: nat | i < |calls| ensures R.Admitted(c.ws, calls, i) { R.ConformingNeverDenied(c.ws, calls, i); }
  }

  lemma ReachedFresh(c: Config, s: State, x: SessionId, u: UserId, gap: nat, lag: nat)
    requires ReachedPromptly(c, s, x, u, lag) && gap + lag < c.presenceTtl && c.ws.window > 0
    requires SessionLive(s, x) && s.sessions[x].who == Some(u) && Connected(s.sessions[x].pc)
    requires Behaves(c, s.sessions[x], s.redis.now, gap)
    ensures ReachedAlone(c, s, x, u)
    ensures var q, now := s.sessions[x], s.redis.now;
      now < q.registeredAt + c.presenceTtl && (!q.pc.GoingOnline? ==> now < q.keptAt + c.presenceTtl)
  {
    var steps :| s == Exec(c, INIT, steps) && PromptRun(c, steps, x, u, lag);
    Always(c, steps, x, u, gap, lag);
    assert steps[..|steps|] == steps;
    assert Undelayed(At(c, steps, |steps|), x, lag);
    hide Exec, NoOverlapRun, Connected, R.Conforming;
    FreshIsRecent(c, s.sessions[x], s.redis.now, gap, lag);
  }
}
