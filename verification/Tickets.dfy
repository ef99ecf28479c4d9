/** Tickets are linear: every accepted session consumed its own ticket, issued to its user and still fresh. */
module Tickets {
  import opened Model
  import opened TtlStore
  import opened RedisServer
  import opened Protocol
  import opened Repository
  import opened Frames

  /** What a session never changes after its ticket was presented. */
  ghost predicate SameIdentity(q: Session, q': Session) {
    && q'.inst == q.inst && q'.epoch == q.epoch && q'.ticket == q.ticket
    && q'.who == q.who && q'.redeemedAt == q.redeemedAt
  }

  lemma GoStepIdentity(
    c: Config, now: Time, d: Directory, db: Database, conns: Conns, x: SessionId, q: Session, u: UserId)
    ensures SameIdentity(q, GoStep(c, now, d, db, conns, x, q, u).3)
    ensures GoStep(c, now, d, db, conns, x, q, u).3.pc.Redeeming? ==> q.pc.Redeeming?
  {
    PcCases(q.pc);
  }

  ghost predicate Redeems(q: Session, input: Input) {
    q.pc.Redeeming? && input.Go?
  }

  /** Only the redemption itself touches the tickets or a session's identity. */
  lemma SessionStepIdentity(
    c: Config, redis: RedisState, db: Database, conns: Conns, x: SessionId, q: Session, input: Input)
    requires !Redeems(q, input)
    ensures SessionStep(c, redis, db, conns, x, q, input).0.tickets == redis.tickets
    ensures SameIdentity(q, SessionStep(c, redis, db, conns, x, q, input).3)
    ensures SessionStep(c, redis, db, conns, x, q, input).3.pc.Redeeming? ==> q.pc.Redeeming?
  {
    match input
    case Break =>
    case Go =>
      if q.who.Some? { GoStepIdentity(c, redis.now, redis.directory, db, conns, x, q, q.who.value); hide GoStep; }
    case Page(_) =>
    case Receive(message) =>
      hide AfterMessage;
      assert !AfterMessage(message, redis.now).Redeeming? by { NeverRedeeming(message, redis.now); }
    case HangUp =>
  }

  lemma NeverRedeeming(message: ClientMessage, now: Time)
    ensures !AfterMessage(message, now).Redeeming?
  {}

  // ----- The invariant -----

  ghost predicate IssuedOk(tickets: Store<Ticket, UserId>, issued: map<Ticket, Issue>, ttl: nat, now: Time) {
    && (forall t :: t in tickets ==> t in issued && tickets[t] == Cell(issued[t].user, Some(issued[t].at + ttl)))
    && (forall t :: t in issued ==> issued[t].at <= now)
  }

  /** The session's ticket was issued to its user, was redeemed within its TTL and is gone. */
  ghost predicate Accepted(tickets: Store<Ticket, UserId>, issued: map<Ticket, Issue>, ttl: nat, q: Session) {
    q.who.Some? ==>
      && q.ticket in issued && issued[q.ticket].user == q.who.value
      && issued[q.ticket].at <= q.redeemedAt < issued[q.ticket].at + ttl
      && q.ticket !in tickets && !q.pc.Redeeming?
  }

  ghost predicate HoldersOk(
    tickets: Store<Ticket, UserId>, issued: map<Ticket, Issue>, ttl: nat, sessions: map<SessionId, Session>) {
    forall x :: x in sessions ==> Accepted(tickets, issued, ttl, sessions[x])
  }

  ghost predicate OneSessionEach(sessions: map<SessionId, Session>) {
    forall x, y :: x in sessions && y in sessions && SameTicket(sessions[x], sessions[y]) ==> x == y
  }

  ghost predicate SameTicket(q: Session, q': Session) {
    q.who.Some? && q'.who.Some? && q.ticket == q'.ticket
  }

  ghost predicate Inv(c: Config, s: State) {
    && IssuedOk(s.redis.tickets, s.issued, c.ticketTtl, s.redis.now)
    && HoldersOk(s.redis.tickets, s.issued, c.ticketTtl, s.sessions)
    && OneSessionEach(s.sessions)
  }

  // ----- Steps -----

  ghost predicate SameTickets(s: State, t: State) {
    && t.redis.tickets == s.redis.tickets && t.issued == s.issued && t.sessions == s.sessions
       && s.redis.now <= t.redis.now
  }

  lemma RedeemKeeps(c: Config, s: State, x: SessionId)
    requires Inv(c, s) && SessionLive(s, x) && s.sessions[x].pc.Redeeming?
    ensures Inv(c, Acted(c, s, x, Go))
  {
    var q, t := s.sessions[x], Acted(c, s, x, Go);
    assert Accepted(s.redis.tickets, s.issued, c.ticketTtl, q);
    assert t.redis.tickets == Del(s.redis.tickets, q.ticket) && t.issued == s.issued;
    assert t.sessions == s.sessions[x := t.sessions[x]] && t.sessions[x].ticket == q.ticket;
    assert t.sessions[x].who == Get(s.redis.tickets, s.redis.now, q.ticket) && t.sessions[x].redeemedAt == s.redis.now;
    assert !t.sessions[x].pc.Redeeming?;
    hide Acted;
    forall y | y in t.sessions ensures Accepted(t.redis.tickets, t.issued, c.ticketTtl, t.sessions[y]) {
      assert Accepted(s.redis.tickets, s.issued, c.ticketTtl, s.sessions[y]);
    }
    forall y | y in s.sessions && y != x ensures !SameTicket(t.sessions[x], s.sessions[y]) {
      assert Accepted(s.redis.tickets, s.issued, c.ticketTtl, s.sessions[y]);
    }
  }

  lemma ActKeeps(c: Config, s: State, x: SessionId, input: Input)
    requires Inv(c, s) && SessionLive(s, x)
    ensures Inv(c, Acted(c, s, x, input))
  {
    var q, t := s.sessions[x], Acted(c, s, x, input);
    if Redeems(q, input) {
      RedeemKeeps(c, s, x);
    } else {
      ActIdentity(c, s, x, input);
      hide Acted, IssuedOk;
      forall y | y in t.sessions ensures Accepted(t.redis.tickets, t.issued, c.ticketTtl, t.sessions[y]) {
        assert Accepted(s.redis.tickets, s.issued, c.ticketTtl, s.sessions[y]);
      }
    }
  }

  lemma ActIdentity(c: Config, s: State, x: SessionId, input: Input)
    requires SessionLive(s, x) && !Redeems(s.sessions[x], input)
    ensures var t := Acted(c, s, x, input);
      && t.redis.tickets == s.redis.tickets && t.issued == s.issued && t.redis.now == s.redis.now
      && x in t.sessions && t.sessions == s.sessions[x := t.sessions[x]]
      && SameIdentity(s.sessions[x], t.sessions[x])
      && (t.sessions[x].pc.Redeeming? ==> s.sessions[x].pc.Redeeming?)
  {
    var q := s.sessions[x];
    SessionStepIdentity(c, s.redis, s.db, s.instances[q.inst].conns, x, q, input);
    ActFrame(c, s, x, input);
    hide SessionStep, SameIdentity;
  }

  lemma IssueKeeps(c: Config, s: State, ticket: Ticket, user: UserId)
    requires Inv(c, s) && ticket !in s.issued
    ensures Inv(c, Apply(c, s, IssueTicket(ticket, user)))
  {
    var t := Apply(c, s, IssueTicket(ticket, user));
    assert t.sessions == s.sessions && t.redis.now == s.redis.now;
    assert t.issued == s.issued[ticket := Issue(user, s.redis.now)];
    assert t.redis.tickets == s.redis.tickets[ticket := Cell(user, Some(s.redis.now + c.ticketTtl))];
    hide Apply;
    forall x | x in t.sessions ensures Accepted(t.redis.tickets, t.issued, c.ticketTtl, t.sessions[x]) {
      assert Accepted(s.redis.tickets, s.issued, c.ticketTtl, s.sessions[x]);
    }
  }

  lemma ConnectKeeps(c: Config, s: State, x: SessionId, q: Session)
    requires Inv(c, s) && x !in s.sessions && q.who.None?
    ensures Inv(c, s.(sessions := s.sessions[x := q]))
  {
    hide IssuedOk;
  }

  lemma FrameKeeps(c: Config, s: State, t: State)
    requires Inv(c, s) && SameTickets(s, t)
    ensures Inv(c, t)
  {}

  lemma RestKeeps(c: Config, s: State, step: Step)
    requires Inv(c, s) && !step.IssueTicket? && !step.Act? && !step.Connect? && !step.Advance?
    ensures Inv(c, Apply(c, s, step))
  {
    if OfWire(step) {
      WireFrame(c, s, step);
      hide Apply;
    } else if OfInstance(step) {
      InstanceFrame(c, s, step);
      hide Apply;
    }
    hide Inv;
    FrameKeeps(c, s, Apply(c, s, step));
  }

  lemma StepKeeps(c: Config, s: State, step: Step)
    requires Inv(c, s)
    ensures Inv(c, Apply(c, s, step))
  {
    hide Inv;
    var t := Apply(c, s, step);
    match step
    case IssueTicket(ticket, u) => if ticket !in s.issued { IssueKeeps(c, s, ticket, u); }
    case Act(x, input) => if SessionLive(s, x) { ActKeeps(c, s, x, input); hide Acted; }
    case Connect(x, i, ticket) =>
      if x !in s.sessions && IsRunning(s, i) { ConnectKeeps(c, s, x, NewSession(i, s.instances[i].epoch, ticket)); }
    case Advance(r, stamp) => if RequestLive(s, r) { AdvanceFrame(c, s, r, stamp); hide Advanced; FrameKeeps(c, s, t); }
    case _ => RestKeeps(c, s, step); hide Apply;
  }

  lemma {:induction false} Always(c: Config, steps: seq<Step>)
    ensures Inv(c, Exec(c, INIT, steps))
  {
    if steps != [] {
      Always(c, steps[..|steps| - 1]);
      StepKeeps(c, Exec(c, INIT, steps[..|steps| - 1]), steps[|steps| - 1]);
    }
  }

  /** Under any interleaving of redemptions, retries and expiries: accepted sessions have distinct tickets, each issued
      to the session's user and redeemed before it expired, and none of them can be redeemed again. */
  lemma TicketsAreLinear(c: Config, s: State, x: SessionId)
    requires Reachable(c, s) && x in s.sessions && s.sessions[x].who.Some?
    ensures var q := s.sessions[x];
      && q.ticket in s.issued && s.issued[q.ticket].user == q.who.value
      && s.issued[q.ticket].at <= q.redeemedAt < s.issued[q.ticket].at + c.ticketTtl
      && Get(s.redis.tickets, s.redis.now, q.ticket).None?
      && forall y :: y in s.sessions && y != x && s.sessions[y].who.Some? ==> s.sessions[y].ticket != q.ticket
  {
    var steps :| s == Exec(c, INIT, steps);
    Always(c, steps);
    hide Exec;
    assert Accepted(s.redis.tickets, s.issued, c.ticketTtl, s.sessions[x]);
    forall y | y in s.sessions && y != x && s.sessions[y].who.Some?
      ensures s.sessions[y].ticket != s.sessions[x].ticket
    {
      assert !SameTicket(s.sessions[x], s.sessions[y]);
    }
  }

  // ----- Exactly when a redemption succeeds -----

  ghost predicate Spent(sessions: map<SessionId, Session>, ticket: Ticket) {
    exists y :: y in sessions && sessions[y].who.Some? && sessions[y].ticket == ticket
  }

  /** An issued ticket is there to be redeemed until it expires or a session has been accepted with it. */
  ghost predicate Outstanding(
    tickets: Store<Ticket, UserId>, issued: map<Ticket, Issue>, ttl: nat, now: Time,
    sessions: map<SessionId, Session>)
  {
    forall t :: t in issued ==> t in tickets || issued[t].at + ttl <= now || Spent(sessions, t)
  }

  ghost predicate AllOutstanding(c: Config, s: State) {
    Outstanding(s.redis.tickets, s.issued, c.ticketTtl, s.redis.now, s.sessions)
  }

  ghost predicate HoldersStay(before: map<SessionId, Session>, after: map<SessionId, Session>) {
    forall x ::
      x in before && before[x].who.Some? ==> x in after && after[x].who.Some? && after[x].ticket == before[x].ticket
  }

  lemma SpentStays(before: map<SessionId, Session>, after: map<SessionId, Session>, ticket: Ticket)
    requires Spent(before, ticket) && HoldersStay(before, after)
    ensures Spent(after, ticket)
  {
    var y :| y in before && before[y].who.Some? && before[y].ticket == ticket;
    assert after[y].ticket == ticket;
  }

  lemma OutstandingStays(c: Config, s: State, t: State)
    requires AllOutstanding(c, s) && t.redis.tickets == s.redis.tickets && t.issued == s.issued
    requires s.redis.now <= t.redis.now && HoldersStay(s.sessions, t.sessions)
    ensures AllOutstanding(c, t)
  {
    forall k | k in t.issued
      ensures k in t.redis.tickets || t.issued[k].at + c.ticketTtl <= t.redis.now || Spent(t.sessions, k)
    {
      if Spent(s.sessions, k) { SpentStays(s.sessions, t.sessions, k); }
    }
    hide Spent, HoldersStay;
  }

  lemma RedeemOutstanding(c: Config, s: State, x: SessionId)
    requires AllOutstanding(c, s) && Inv(c, s) && SessionLive(s, x) && s.sessions[x].pc.Redeeming?
    ensures AllOutstanding(c, Acted(c, s, x, Go))
  {
    var q, t := s.sessions[x], Acted(c, s, x, Go);
    ActFrame(c, s, x, Go);
    assert Accepted(s.redis.tickets, s.issued, c.ticketTtl, q);
    assert t.redis.tickets == Del(s.redis.tickets, q.ticket);
    assert t.sessions[x].ticket == q.ticket && t.sessions[x].who == Get(s.redis.tickets, s.redis.now, q.ticket);
    hide Acted, HoldersOk, OneSessionEach;
    assert HoldersStay(s.sessions, t.sessions);
    forall k | k in t.issued
      ensures k in t.redis.tickets || t.issued[k].at + c.ticketTtl <= t.redis.now || Spent(t.sessions, k)
    {
      if Spent(s.sessions, k) { SpentStays(s.sessions, t.sessions, k); }
    }
  }

  lemma ActOutstanding(c: Config, s: State, x: SessionId, input: Input)
    requires AllOutstanding(c, s) && Inv(c, s) && SessionLive(s, x)
    ensures AllOutstanding(c, Acted(c, s, x, input))
  {
    if Redeems(s.sessions[x], input) {
      RedeemOutstanding(c, s, x);
    } else {
      ActIdentity(c, s, x, input);
      hide Acted, Inv, AllOutstanding;
      OutstandingStays(c, s, Acted(c, s, x, input));
    }
  }

  lemma IssueOutstanding(c: Config, s: State, ticket: Ticket, u: UserId)
    requires AllOutstanding(c, s)
    ensures AllOutstanding(c, Apply(c, s, IssueTicket(ticket, u)))
  {
    hide Spent;
  }

  lemma RestOutstanding(c: Config, s: State, step: Step)
    requires AllOutstanding(c, s) && !step.Act? && !step.IssueTicket? && !step.Advance?
    ensures AllOutstanding(c, Apply(c, s, step))
  {
    hide AllOutstanding;
    if OfWire(step) { WireFrame(c, s, step); hide Apply; }
    else if OfInstance(step) { InstanceFrame(c, s, step); hide Apply; }
    OutstandingStays(c, s, Apply(c, s, step));
  }

  lemma StepOutstanding(c: Config, s: State, step: Step)
    requires AllOutstanding(c, s) && Inv(c, s)
    ensures AllOutstanding(c, Apply(c, s, step))
  {
    if step.Advance? && RequestLive(s, step.r) { AdvanceFrame(c, s, step.r, step.stamp); }
    hide *;
    match step
    case Act(x, input) => ApplyAct(c, s, x, input); if SessionLive(s, x) { ActOutstanding(c, s, x, input); }
    case IssueTicket(ticket, u) => IssueOutstanding(c, s, ticket, u);
    case Advance(r, stamp) =>
      ApplyAdvance(c, s, r, stamp);
      if RequestLive(s, r) { SameHolders(s.sessions); OutstandingStays(c, s, Advanced(c, s, r, stamp)); }
    case _ => RestOutstanding(c, s, step);
  }

  lemma SameHolders(sessions: map<SessionId, Session>)
    ensures HoldersStay(sessions, sessions)
  {}

  lemma {:induction false} AlwaysOutstanding(c: Config, steps: seq<Step>)
    ensures AllOutstanding(c, Exec(c, INIT, steps))
  {
    if steps != [] {
      var before := steps[..|steps| - 1];
      AlwaysOutstanding(c, before);
      Always(c, before);
      hide AllOutstanding, Inv, Apply;
      StepOutstanding(c, Exec(c, INIT, before), steps[|steps| - 1]);
    }
  }

  /** In every run a redemption is accepted for `u` exactly when the presented ticket was issued to `u`, less than its
      TTL ago, and no session has been accepted with it before. */
  lemma RedeemedIff(c: Config, s: State, x: SessionId, u: UserId)
    requires Reachable(c, s) && SessionLive(s, x) && s.sessions[x].pc.Redeeming?
    ensures var ticket, t := s.sessions[x].ticket, Apply(c, s, Act(x, Go));
      x in t.sessions &&
      (t.sessions[x].who == Some(u) <==>
         && ticket in s.issued && s.issued[ticket].user == u && s.redis.now < s.issued[ticket].at + c.ticketTtl
         && !Spent(s.sessions, ticket))
  {
    var steps :| s == Exec(c, INIT, steps);
    Always(c, steps);
    AlwaysOutstanding(c, steps);
    var ticket, t := s.sessions[x].ticket, Acted(c, s, x, Go);
    assert t.sessions[x].who == Get(s.redis.tickets, s.redis.now, ticket);
    hide Exec, Acted;
    if Spent(s.sessions, ticket) {
      var y :| y in s.sessions && s.sessions[y].who.Some? && s.sessions[y].ticket == ticket;
      assert Accepted(s.redis.tickets, s.issued, c.ticketTtl, s.sessions[y]);
    }
  }
}
