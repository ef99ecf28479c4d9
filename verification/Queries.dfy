/** When a session's backlog was read: at one moment of the run, after the session had registered. */
module Queries {
  import opened Model
  import opened TtlStore
  import opened RedisServer
  import opened Repository
  import opened Protocol
  import opened Frames
  import opened Effects
  import opened Snapshots
  import T = Tickets
  import V = Vetting

  /** Step `j` of the run registers session `x`. */
  ghost predicate Registers(c: Config, steps: seq<Step>, j: nat, x: SessionId) {
    j < |steps| && steps[j] == Act(x, Go) &&
    var s := At(c, steps, j);
    SessionLive(s, x) && s.sessions[x].pc.Registering? && s.sessions[x].who.Some?
  }

  /** Step `k` of the run is the backlog query of session `x`, which finds `rows` in the table and answers `page`. */
  ghost predicate Queries(c: Config, steps: seq<Step>, k: nat, x: SessionId, rows: seq<Row>, page: seq<Row>) {
    k < |steps| && steps[k] == Act(x, Page(page)) &&
    var s := At(c, steps, k);
    SessionLive(s, x) && s.sessions[x].pc.Snapshotting? && s.db.rows == rows
  }

  /** The registration comes before the query, and the query is where the session's backlog is from. */
  ghost predicate Witnessed(c: Config, steps: seq<Step>, x: SessionId, q: Session) {
    && (q.pc.GoingOnline? || q.pc.Snapshotting? ==> exists j: nat :: Registers(c, steps, j, x))
    && (q.snapshot.Some? ==>
          exists j: nat, k: nat ::
            j < k && Registers(c, steps, j, x) && Queries(c, steps, k, x, q.snapshot.value, q.backlog))
  }

  ghost predicate AllWitnessed(c: Config, steps: seq<Step>, sessions: map<SessionId, Session>) {
    forall x :: x in sessions ==> Witnessed(c, steps, x, sessions[x])
  }

  lemma RegistersStays(c: Config, steps: seq<Step>, step: Step, j: nat, x: SessionId)
    ensures Registers(c, steps, j, x) ==> Registers(c, steps + [step], j, x)
  {
    if j < |steps| { V.AtPrefix(c, steps, step, j); }
    hide At;
  }

  lemma QueriesStays(c: Config, steps: seq<Step>, step: Step, k: nat, x: SessionId, rows: seq<Row>, page: seq<Row>)
    ensures Queries(c, steps, k, x, rows, page) ==> Queries(c, steps + [step], k, x, rows, page)
  {
    if k < |steps| { V.AtPrefix(c, steps, step, k); }
    hide At;
  }

  lemma WitnessedStays(c: Config, steps: seq<Step>, step: Step, x: SessionId, q: Session)
    ensures Witnessed(c, steps, x, q) ==> Witnessed(c, steps + [step], x, q)
  {
    if !Witnessed(c, steps, x, q) { return; }
    if q.pc.GoingOnline? || q.pc.Snapshotting? {
      var j: nat :| Registers(c, steps, j, x);
      RegistersStays(c, steps, step, j, x);
    }
    if q.snapshot.Some? {
      var j: nat, k: nat :| j < k && Registers(c, steps, j, x) && Queries(c, steps, k, x, q.snapshot.value, q.backlog);
      RegistersStays(c, steps, step, j, x);
      QueriesStays(c, steps, step, k, x, q.snapshot.value, q.backlog);
    }
    hide Registers, Queries;
  }

  /** Where the registration, and the wait for the query, come from. */
  lemma WaitMoves(c: Config, redis: RedisState, db: Database, x: SessionId, q: Session, input: Input, q': Session)
    requires Moves(c, redis, db, x, q, input, q') && !T.Redeems(q, input) && (q'.pc.GoingOnline? || q'.pc.Snapshotting?)
    ensures q.pc.GoingOnline? || q.pc.Snapshotting? || (q.pc.Registering? && Goes(q, input))
  {
    match input
    case Break =>
    case Go =>
    case Page(_) =>
    case Receive(message) => hide TakeMessage, AfterMessage; TakenPc(c, redis, x, q, message);
    case HangUp =>
  }

  lemma TakenPc(c: Config, redis: RedisState, x: SessionId, q: Session, message: ClientMessage)
    ensures var q' := TakeMessage(c, redis, x, q, message).1;
      !q'.pc.GoingOnline? && !q'.pc.Snapshotting?
  {}

  lemma OwnStep(c: Config, steps: seq<Step>, s: State, x: SessionId, input: Input)
    requires s == Exec(c, INIT, steps) && SessionLive(s, x) && Witnessed(c, steps, x, s.sessions[x])
    ensures var t := Acted(c, s, x, input);
      x in t.sessions && Witnessed(c, steps + [Act(x, input)], x, t.sessions[x])
  {
    var q, t, all := s.sessions[x], Acted(c, s, x, input), steps + [Act(x, input)];
    WitnessedStays(c, steps, Act(x, input), x, q);
    V.AtEnd(c, steps, Act(x, input));
    ActEffects(c, s, x, input);
    var q' := t.sessions[x];
    if T.Redeems(q, input) {
      hide Acted, At, Exec, Registers, Queries;
      return;
    }
    SnapshotMoves(c, s.redis, s.db, x, q, input, q');
    if q'.pc.GoingOnline? || q'.pc.Snapshotting? { WaitMoves(c, s.redis, s.db, x, q, input, q'); }
    hide Acted, Moves, At, Exec, IsPage, UnreadOf;
    if q.pc.Registering? && Goes(q, input) { assert Registers(c, all, |steps|, x); }
    if q'.snapshot != q.snapshot || q'.backlog != q.backlog {
      var j: nat :| Registers(c, steps, j, x);
      PageIs(c, s, x, input);
      RegistersStays(c, steps, Act(x, input), j, x);
      assert Queries(c, all, |steps|, x, s.db.rows, q'.backlog);
    }
  }

  /** The answer that drove the query is the backlog. */
  lemma PageIs(c: Config, s: State, x: SessionId, input: Input)
    requires SessionLive(s, x) && input.Page?
    ensures var q, q' := s.sessions[x], Acted(c, s, x, input).sessions[x];
      q' == q || q'.backlog == input.rows
  {
    hide IsPage, UnreadOf;
  }

  lemma StepKeeps(c: Config, steps: seq<Step>, s: State, step: Step)
    requires s == Exec(c, INIT, steps) && AllWitnessed(c, steps, s.sessions)
    ensures AllWitnessed(c, steps + [step], Apply(c, s, step).sessions)
  {
    var t := Apply(c, s, step);
    SessionsMove(c, s, step);
    hide Exec, Witnessed;
    forall x | x in t.sessions ensures Witnessed(c, steps + [step], x, t.sessions[x]) {
      if x !in s.sessions {
        NotYet(c, s, steps + [step], step, x);
      } else if t.sessions[x] == s.sessions[x] {
        WitnessedStays(c, steps, step, x, s.sessions[x]);
      } else {
        OwnStep(c, steps, s, x, step.input);
      }
      hide Apply, Acted;
    }
  }

  lemma NotYet(c: Config, s: State, steps: seq<Step>, step: Step, x: SessionId)
    requires x in Apply(c, s, step).sessions && x !in s.sessions
    ensures Witnessed(c, steps, x, Apply(c, s, step).sessions[x])
  {
    SessionsMove(c, s, step);
    hide Apply;
  }

  lemma {:induction false} Always(c: Config, steps: seq<Step>)
    ensures AllWitnessed(c, steps, Exec(c, INIT, steps).sessions)
  {
    if steps == [] { return; }
    var before, step := steps[..|steps| - 1], steps[|steps| - 1];
    Always(c, before);
    assert steps == before + [step];
    assert Exec(c, INIT, steps) == Apply(c, Exec(c, INIT, before), step);
    hide Exec, AllWitnessed, Apply;
    StepKeeps(c, before, Exec(c, INIT, before), step);
  }

  /** In every run, the backlog a session is sent is a sorted choice of the `limit` oldest rows that were unread, for
      the ticket's user, in the table as it was at one moment of the run, when the session was about to query and
      after it had registered. No notification is in it twice, all it saw is still there, and once the session takes
      messages the backlog frame has been written. */
  lemma BacklogIsOldestUnread(c: Config, steps: seq<Step>, s: State, x: SessionId)
    requires s == Exec(c, INIT, steps) && x in s.sessions && s.sessions[x].snapshot.Some?
    ensures var q := s.sessions[x]; var rows := q.snapshot.value;
      && (exists j: nat, k: nat :: j < k && Registers(c, steps, j, x) && Queries(c, steps, k, x, rows, q.backlog))
      && q.who.Some? && IsPage(true, q.backlog, UnreadOf(rows, q.who.value), c.backlogLimit)
      && (forall j, k :: 0 <= j < k < |q.backlog| ==> q.backlog[j].note.nid != q.backlog[k].note.nid)
      && PageOfBacklog(rows, q.who.value, c.backlogLimit, q.backlog)
      && Preserves(rows, s.db.rows) && (Served(q.pc) ==> q.sent)
  {
    var q := s.sessions[x];
    Always(c, steps);
    Snapshots.Always(c, steps);
    assert Witnessed(c, steps, x, q);
    assert SnapshotOk(c, s.db.rows, q) && SentOk(q);
    hide Exec, Registers, Queries;
    PageOfBacklogMeans(q.snapshot.value, q.who.value, c.backlogLimit, q.backlog);
    BacklogIdsDistinct(q.snapshot.value, q.backlog, UnreadOf(q.snapshot.value, q.who.value));
  }

  /** A registration makes the user routable to the session's instance, for a TTL. */
  lemma RegistersMeans(c: Config, steps: seq<Step>, j: nat, x: SessionId)
    requires Registers(c, steps, j, x)
    ensures var s, t := At(c, steps, j), Apply(c, At(c, steps, j), steps[j]); var q := s.sessions[x];
      q.who.value in t.redis.directory.registry
      && t.redis.directory.registry[q.who.value] == Cell(q.inst, Some(s.redis.now + c.presenceTtl))
  {
    var s := At(c, steps, j);
    hide At;
    ActEffects(c, s, x, Go);
    hide Acted, Moves, StatusAfterGo;
  }
}
