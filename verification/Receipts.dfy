/** Who can mark a notification read, in every run: its owner, by a receipt message on a session of the owner's. */
module Receipts {
  import opened Model
  import opened RedisServer
  import opened Repository
  import opened Protocol
  import opened Frames
  import opened Effects
  import S = Snapshots
  import T = Tickets
  import V = Vetting

  /** Step `i` of the run is session `x` being sent a receipt for `n`, at time `at`. */
  ghost predicate Asks(c: Config, steps: seq<Step>, i: nat, x: SessionId, n: NotificationId, at: Time) {
    i < |steps| && steps[i] == Act(x, Receive(ReceiptMessage(n))) &&
    var s := At(c, steps, i);
    SessionLive(s, x) && s.sessions[x].pc.Serving? && s.redis.now == at
  }

  /** The next command of session `x`, of user `u`, records that `n` was read at `at`. */
  ghost predicate AboutToRecord(s: State, x: SessionId, u: UserId, n: NotificationId, at: Time) {
    SessionLive(s, x) && s.sessions[x].pc == Receipting(n, at) && s.sessions[x].who == Some(u)
  }

  /** Step `j` of the run is that command, and the session's ticket was issued to `u`. */
  ghost predicate Records(c: Config, steps: seq<Step>, j: nat, x: SessionId, u: UserId, n: NotificationId, at: Time) {
    j < |steps| && steps[j] == Act(x, Go) &&
    var s := At(c, steps, j);
    AboutToRecord(s, x, u, n, at) && s.sessions[x].ticket in s.issued && s.issued[s.sessions[x].ticket].user == u
  }

  ghost predicate Asked(c: Config, steps: seq<Step>, x: SessionId, n: NotificationId, at: Time) {
    exists i: nat :: Asks(c, steps, i, x, n, at)
  }

  /** A session of `u` was sent a receipt for `n` at `at` and then recorded it. */
  ghost predicate Recorded(c: Config, steps: seq<Step>, u: UserId, n: NotificationId, at: Time) {
    exists i: nat, j: nat, x :: i < j && Asks(c, steps, i, x, n, at) && Records(c, steps, j, x, u, n, at)
  }

  ghost predicate AllAsked(c: Config, steps: seq<Step>, sessions: map<SessionId, Session>) {
    forall x ::
      x in sessions && sessions[x].pc.Receipting? ==> Asked(c, steps, x, sessions[x].pc.nid, sessions[x].pc.at)
  }

  ghost predicate AllRecorded(c: Config, steps: seq<Step>, db: Database) {
    && (forall k :: 0 <= k < |db.rows| && db.rows[k].readAt.Some? ==>
          Recorded(c, steps, db.rows[k].note.user, db.rows[k].note.nid, db.rows[k].readAt.value))
    && (forall k :: 0 <= k < |db.receipts| ==>
          Recorded(c, steps, db.receipts[k].user, db.receipts[k].nid, db.receipts[k].readAt))
  }

  // ----- Longer runs -----

  lemma AsksStays(c: Config, steps: seq<Step>, step: Step, i: nat, x: SessionId, n: NotificationId, at: Time)
    requires Asks(c, steps, i, x, n, at)
    ensures Asks(c, steps + [step], i, x, n, at)
  {
    V.AtPrefix(c, steps, step, i);
    hide At;
  }

  lemma AskedStays(c: Config, steps: seq<Step>, step: Step, x: SessionId, n: NotificationId, at: Time)
    ensures Asked(c, steps, x, n, at) ==> Asked(c, steps + [step], x, n, at)
  {
    if Asked(c, steps, x, n, at) {
      var i: nat :| Asks(c, steps, i, x, n, at);
      AsksStays(c, steps, step, i, x, n, at);
    }
    hide Asks;
  }

  lemma RecordedStays(c: Config, steps: seq<Step>, step: Step, u: UserId, n: NotificationId, at: Time)
    ensures Recorded(c, steps, u, n, at) ==> Recorded(c, steps + [step], u, n, at)
  {
    if Recorded(c, steps, u, n, at) {
      var i: nat, j: nat, x :| i < j && Asks(c, steps, i, x, n, at) && Records(c, steps, j, x, u, n, at);
      AsksStays(c, steps, step, i, x, n, at);
      V.AtPrefix(c, steps, step, j);
      assert Records(c, steps + [step], j, x, u, n, at);
    }
    hide Asks, At, AboutToRecord;
  }

  // ----- Where a receipt comes from -----

  /** Only a receipt message makes a session record one, and it is the one the client named, at the time it came. */
  lemma ReceiptMoves(c: Config, redis: RedisState, db: Database, x: SessionId, q: Session, input: Input, q': Session)
    requires Moves(c, redis, db, x, q, input, q') && q'.pc.Receipting?
    ensures q'.pc == q.pc || (q.pc.Serving? && input == Receive(ReceiptMessage(q'.pc.nid)) && q'.pc.at == redis.now)
  {
    hide IsPage, UnreadOf;
    match input
    case Break =>
    case Go => PcCases(q.pc);
    case Page(_) =>
    case Receive(message) =>
      match message {
      case HeartbeatMessage =>
      case PresenceMessage(_) =>
      case ReceiptMessage(_) =>
      case OtherMessage =>
      }
    case HangUp =>
  }

  lemma OwnAsked(c: Config, steps: seq<Step>, s: State, x: SessionId, input: Input)
    ensures s == Exec(c, INIT, steps) && SessionLive(s, x) && AllAsked(c, steps, s.sessions) ==>
      var t := Acted(c, s, x, input);
      x in t.sessions &&
      (t.sessions[x].pc.Receipting? ==>
         Asked(c, steps + [Act(x, input)], x, t.sessions[x].pc.nid, t.sessions[x].pc.at))
  {
    if s != Exec(c, INIT, steps) || !SessionLive(s, x) || !AllAsked(c, steps, s.sessions) { return; }
    var q, all := s.sessions[x], steps + [Act(x, input)];
    ActEffects(c, s, x, input);
    var q' := Acted(c, s, x, input).sessions[x];
    hide Acted, RegistryAfterGo, StatusAfterGo;
    if !q'.pc.Receipting? { return; }
    ReceiptMoves(c, s.redis, s.db, x, q, input, q');
    V.AtEnd(c, steps, Act(x, input));
    hide Moves, Exec, At;
    if q'.pc == q.pc {
      AskedStays(c, steps, Act(x, input), x, q.pc.nid, q.pc.at);
    } else {
      assert Asks(c, all, |steps|, x, q'.pc.nid, q'.pc.at);
    }
  }

  lemma StepAsked(c: Config, steps: seq<Step>, s: State, step: Step)
    ensures s == Exec(c, INIT, steps) && AllAsked(c, steps, s.sessions) ==>
      AllAsked(c, steps + [step], Apply(c, s, step).sessions)
  {
    if s != Exec(c, INIT, steps) || !AllAsked(c, steps, s.sessions) { return; }
    var t := Apply(c, s, step);
    S.SessionsMove(c, s, step);
    if step.Act? { ApplyAct(c, s, step.x, step.input); OwnAsked(c, steps, s, step.x, step.input); }
    hide Exec, Apply, Acted, Asked;
    forall x | x in t.sessions && t.sessions[x].pc.Receipting?
      ensures Asked(c, steps + [step], x, t.sessions[x].pc.nid, t.sessions[x].pc.at)
    {
      if x in s.sessions && t.sessions[x] == s.sessions[x] {
        AskedStays(c, steps, step, x, s.sessions[x].pc.nid, s.sessions[x].pc.at);
      }
    }
  }

  // ----- What a step does to read marks and receipts -----

  ghost predicate SameReads(before: Database, after: Database) {
    && after.receipts == before.receipts && |before.rows| <= |after.rows|
    && (forall k :: 0 <= k < |before.rows| ==>
          after.rows[k].note == before.rows[k].note && after.rows[k].readAt == before.rows[k].readAt)
    && (forall k :: |before.rows| <= k < |after.rows| ==> after.rows[k].readAt.None?)
  }

  lemma PostReads(c: Config, redis: RedisState, db: Database, q: Request, stamp: Time)
    ensures SameReads(db, PostStep(c, redis, db, q, stamp).1)
  {
    match q.pc
    case Rating =>
    case Checking =>
    case Inserting =>
    case Marking(_) =>
    case Looking(_) =>
    case Probing(_, _) =>
    case Publishing(_, _) =>
    case Flagging(_, _) =>
    case Replied(_) =>
    case Failed =>
  }

  lemma ActReads(c: Config, s: State, x: SessionId, input: Input)
    requires SessionLive(s, x)
    ensures var q, t := s.sessions[x], Acted(c, s, x, input);
      if Goes(q, input) && q.pc.Receipting? then ReadBy(s.db, t.db, q.pc.nid, q.who.value, q.pc.at) else t.db == s.db
  {
    var q := s.sessions[x];
    if Goes(q, input) {
      GoStepDatabase(c, s.redis.now, s.redis.directory, s.db, s.instances[q.inst].conns, x, q, q.who.value);
      if q.pc.Receipting? { ReadsOwnRowsOnly(s.db, q.pc.nid, q.who.value, q.pc.at); }
      hide GoStep, RecordRead, ReadBy;
    }
  }

  /** A step changes read marks and receipts only by recording a receipt, and only those it is about. */
  lemma StepReads(c: Config, s: State, step: Step)
    ensures var t := Apply(c, s, step);
      if step.Act? && step.input.Go? && SessionLive(s, step.x) && s.sessions[step.x].pc.Receipting?
         && s.sessions[step.x].who.Some?
      then ReadBy(s.db, t.db, s.sessions[step.x].pc.nid, s.sessions[step.x].who.value, s.sessions[step.x].pc.at)
      else SameReads(s.db, t.db)
  {
    if step.Act? {
      ApplyAct(c, s, step.x, step.input);
      hide Apply;
      if SessionLive(s, step.x) { ActReads(c, s, step.x, step.input); }
      hide Acted, ReadBy;
    } else if step.Advance? {
      ApplyAdvance(c, s, step.r, step.stamp);
      hide Apply;
      if RequestLive(s, step.r) { PostReads(c, s.redis, s.db, s.requests[step.r], step.stamp); }
      hide PostStep;
    } else if !step.Post? && !step.FailRequest? {
      RestFrame(c, s, step);
      hide Apply;
    }
  }

  lemma SameRecorded(c: Config, steps: seq<Step>, step: Step, before: Database, after: Database)
    requires SameReads(before, after)
    ensures AllRecorded(c, steps, before) ==> AllRecorded(c, steps + [step], after)
  {
    hide Recorded;
    if !AllRecorded(c, steps, before) { return; }
    forall u, n, at ensures Recorded(c, steps, u, n, at) ==> Recorded(c, steps + [step], u, n, at) {
      RecordedStays(c, steps, step, u, n, at);
    }
  }

  lemma NowRecorded(
    c: Config, steps: seq<Step>, step: Step, before: Database, after: Database, u: UserId, n: NotificationId, at: Time)
    requires ReadBy(before, after, n, u, at)
    ensures AllRecorded(c, steps, before) && Recorded(c, steps + [step], u, n, at) ==>
              AllRecorded(c, steps + [step], after)
  {
    hide Recorded;
    if !AllRecorded(c, steps, before) || !Recorded(c, steps + [step], u, n, at) { return; }
    forall u, n, at ensures Recorded(c, steps, u, n, at) ==> Recorded(c, steps + [step], u, n, at) {
      RecordedStays(c, steps, step, u, n, at);
    }
  }

  /** The command about to run records what the session was asked to record, by a session of the user's own. */
  lemma RecordsNow(c: Config, steps: seq<Step>, s: State, x: SessionId, u: UserId, n: NotificationId, at: Time)
    ensures s == Exec(c, INIT, steps) && AboutToRecord(s, x, u, n, at) && Asked(c, steps, x, n, at) && T.Inv(c, s) ==>
              Recorded(c, steps + [Act(x, Go)], u, n, at)
  {
    if s != Exec(c, INIT, steps) || !AboutToRecord(s, x, u, n, at) { return; }
    if !Asked(c, steps, x, n, at) || !T.Inv(c, s) { return; }
    var all := steps + [Act(x, Go)];
    assert T.Accepted(s.redis.tickets, s.issued, c.ticketTtl, s.sessions[x]);
    V.AtEnd(c, steps, Act(x, Go));
    hide Exec, At, T.Inv;
    var i: nat :| Asks(c, steps, i, x, n, at);
    assert i < |steps|;
    AsksStays(c, steps, Act(x, Go), i, x, n, at);
    assert Records(c, all, |steps|, x, u, n, at);
    hide Asks, Records, AboutToRecord;
  }

  /** The run has come to `s`, where all this is known. */
  ghost predicate Known(c: Config, steps: seq<Step>, s: State) {
    s == Exec(c, INIT, steps) && T.Inv(c, s) && AllAsked(c, steps, s.sessions) && AllRecorded(c, steps, s.db)
  }

  lemma StepRecorded(c: Config, steps: seq<Step>, s: State, step: Step)
    ensures Known(c, steps, s) ==> AllRecorded(c, steps + [step], Apply(c, s, step).db)
  {
    if !Known(c, steps, s) { return; }
    StepReads(c, s, step);
    var t := Apply(c, s, step);
    hide Exec, Apply, T.Inv, AllRecorded, Recorded, ReadBy, SameReads, Asked;
    if step.Act? && step.input.Go? && SessionLive(s, step.x) && s.sessions[step.x].pc.Receipting?
       && s.sessions[step.x].who.Some?
    {
      var q := s.sessions[step.x];
      RecordsNow(c, steps, s, step.x, q.who.value, q.pc.nid, q.pc.at);
      NowRecorded(c, steps, step, s.db, t.db, q.who.value, q.pc.nid, q.pc.at);
    } else {
      SameRecorded(c, steps, step, s.db, t.db);
    }
  }

  lemma {:induction false} Always(c: Config, steps: seq<Step>)
    ensures AllAsked(c, steps, Exec(c, INIT, steps).sessions) && AllRecorded(c, steps, Exec(c, INIT, steps).db)
  {
    if steps == [] { return; }
    var before, step := steps[..|steps| - 1], steps[|steps| - 1];
    Always(c, before);
    T.Always(c, before);
    assert steps == before + [step];
    assert Exec(c, INIT, steps) == Apply(c, Exec(c, INIT, before), step);
    hide Exec, Apply, T.Inv, AllAsked, AllRecorded;
    StepAsked(c, before, Exec(c, INIT, before), step);
    StepRecorded(c, before, Exec(c, INIT, before), step);
  }

  /** In every run: a row that is marked read was marked by its own user. A session whose ticket was issued to that user
      was sent a receipt for this id at exactly the time that is recorded, and then recorded it. */
  lemma OnlyOwnersMarkRead(c: Config, steps: seq<Step>, s: State, k: nat)
    requires s == Exec(c, INIT, steps) && k < |s.db.rows| && s.db.rows[k].readAt.Some?
    ensures var r := s.db.rows[k];
      exists i: nat, j: nat, x :: i < j && Asks(c, steps, i, x, r.note.nid, r.readAt.value)
        && Records(c, steps, j, x, r.note.user, r.note.nid, r.readAt.value)
  {
    Always(c, steps);
    hide Exec, Asks, Records;
    assert Recorded(c, steps, s.db.rows[k].note.user, s.db.rows[k].note.nid, s.db.rows[k].readAt.value);
  }
}
