/** What a session saw of the table, in every run: one query, of the oldest unread rows, after which nothing it saw is
    lost; and when the backlog frame that carries the answer has been written. */
module Snapshots {
  import opened Model
  import opened RedisServer
  import opened Repository
  import opened Protocol
  import opened Frames
  import opened Effects
  import D = Delivery
  import T = Tickets

  /** The backlog query is still ahead. */
  ghost predicate Early(pc: SessionPc) {
    match pc
    case Redeeming | Rejected | Adding | Registering | GoingOnline | Snapshotting => true
    case _ => false
  }

  /** The session saw the table once, as it then was; no row it saw has gone or lost a mark since. */
  ghost predicate SnapshotOk(c: Config, rows: seq<Row>, q: Session) {
    q.snapshot.Some? ==>
      && !Early(q.pc) && q.who.Some?
      && DistinctIds(q.snapshot.value) && Preserves(q.snapshot.value, rows)
      && IsPage(true, q.backlog, UnreadOf(q.snapshot.value, q.who.value), c.backlogLimit)
  }

  /** From the first client message waited for until the session leaves. */
  ghost predicate Served(pc: SessionPc) {
    match pc
    case Serving | Beating | Refreshing | Updating(_) | Receipting(_, _) => true
    case _ => false
  }

  /** The backlog frame is written after the query and before the first client message. */
  ghost predicate SentOk(q: Session) {
    && (q.sent || q.pc.SendingBacklog? ==> q.snapshot.Some?)
    && (q.sent ==> !Early(q.pc) && !q.pc.SendingBacklog?)
    && (Served(q.pc) ==> q.sent)
  }

  ghost predicate Inv(c: Config, s: State) {
    forall x :: x in s.sessions ==> SnapshotOk(c, s.db.rows, s.sessions[x]) && SentOk(s.sessions[x])
  }

  lemma SnapshotKept(c: Config, before: seq<Row>, after: seq<Row>, q: Session)
    requires SnapshotOk(c, before, q) && Preserves(before, after)
    ensures SnapshotOk(c, after, q)
  {
    if q.snapshot.Some? { PreservesTransitive(q.snapshot.value, before, after); }
    hide IsPage, DistinctIds, Preserves, UnreadOf;
  }

  lemma LateStaysLate(c: Config, redis: RedisState, db: Database, x: SessionId, q: Session, input: Input, q': Session)
    requires Moves(c, redis, db, x, q, input, q') && !T.Redeems(q, input)
    ensures Early(q'.pc) ==> Early(q.pc)
  {
    match input
    case Break =>
    case Go =>
      PcCases(q.pc);
    case Page(_) =>
    case Receive(message) =>
      match message {
      case HeartbeatMessage =>
      case PresenceMessage(_) =>
      case ReceiptMessage(_) =>
      case OtherMessage =>
      }
    case HangUp =>
  }

  /** The query is the only step that changes what a session saw. */
  lemma SnapshotMoves(c: Config, redis: RedisState, db: Database, x: SessionId, q: Session, input: Input, q': Session)
    requires Moves(c, redis, db, x, q, input, q') && !T.Redeems(q, input)
    ensures (q'.snapshot == q.snapshot && q'.backlog == q.backlog) ||
            (input.Page? && q.pc.Snapshotting? && q'.pc.SendingBacklog? && q'.snapshot == Some(db.rows) && q.who.Some?
             && IsPage(true, q'.backlog, UnreadOf(db.rows, q.who.value), c.backlogLimit))
  {
    hide IsPage, UnreadOf, AfterBreak, AfterMessage;
  }

  lemma SentMoves(c: Config, redis: RedisState, db: Database, x: SessionId, q: Session, input: Input, q': Session)
    requires Moves(c, redis, db, x, q, input, q') && SentOk(q)
    ensures SentOk(q')
  {
    hide IsPage, UnreadOf;
    match input
    case Break =>
    case Go => PcCases(q.pc);
    case Page(_) =>
    case Receive(message) =>
      match message {
      case HeartbeatMessage =>
      case PresenceMessage(_) =>
      case ReceiptMessage(_) =>
      case OtherMessage =>
      }
    case HangUp =>
  }

  lemma OwnStep(c: Config, s: State, x: SessionId, input: Input)
    requires SessionLive(s, x) && SnapshotOk(c, s.db.rows, s.sessions[x]) && SentOk(s.sessions[x])
      && DistinctIds(s.db.rows)
    requires Preserves(s.db.rows, Acted(c, s, x, input).db.rows)
    ensures var t := Acted(c, s, x, input);
      x in t.sessions && SnapshotOk(c, t.db.rows, t.sessions[x]) && SentOk(t.sessions[x])
  {
    var q, t := s.sessions[x], Acted(c, s, x, input);
    ActEffects(c, s, x, input);
    SentMoves(c, s.redis, s.db, x, q, input, t.sessions[x]);
    hide SentOk;
    if T.Redeems(q, input) {
      assert q.snapshot.None?;
    } else {
      T.ActIdentity(c, s, x, input);
      SnapshotMoves(c, s.redis, s.db, x, q, input, t.sessions[x]);
      LateStaysLate(c, s.redis, s.db, x, q, input, t.sessions[x]);
      hide Acted, Moves, IsPage, UnreadOf, DistinctIds;
      if t.sessions[x].snapshot == q.snapshot {
        SnapshotKept(c, s.db.rows, t.db.rows, q);
      }
    }
  }

  lemma StepKeeps(c: Config, s: State, step: Step)
    requires Inv(c, s) && D.Inv(s)
    ensures Inv(c, Apply(c, s, step))
  {
    var t := Apply(c, s, step);
    D.StepKeeps(c, s, step);
    assert DistinctIds(s.db.rows);
    hide D.Inv, Preserves, DistinctIds;
    SessionsMove(c, s, step);
    forall x | x in t.sessions ensures SnapshotOk(c, t.db.rows, t.sessions[x]) && SentOk(t.sessions[x]) {
      if x in s.sessions && t.sessions[x] == s.sessions[x] {
        SnapshotKept(c, s.db.rows, t.db.rows, s.sessions[x]);
      } else if x in s.sessions {
        assert Apply(c, s, step) == Acted(c, s, x, step.input);
        OwnStep(c, s, x, step.input);
      }
    }
  }

  /** A session changes by its own steps only. */
  lemma SessionsMove(c: Config, s: State, step: Step)
    ensures var t := Apply(c, s, step);
      forall x :: x in t.sessions ==>
        if x in s.sessions then t.sessions[x] == s.sessions[x] || (step.Act? && step.x == x && SessionLive(s, x))
        else var q := t.sessions[x]; q.snapshot.None? && q.who.None? && !q.sent && q.pc.Redeeming?
    ensures forall x :: x in s.sessions ==> x in Apply(c, s, step).sessions
  {
    match step
    case Advance(r, stamp) => if RequestLive(s, r) { AdvanceFrame(c, s, r, stamp); hide Advanced; }
    case Act(x, input) => if SessionLive(s, x) { ActFrame(c, s, x, input); hide Acted; }
    case _ =>
      if OfWire(step) { WireFrame(c, s, step); hide Apply; }
      else if OfInstance(step) { InstanceFrame(c, s, step); hide Apply; }
  }

  lemma {:induction false} Always(c: Config, steps: seq<Step>)
    ensures Inv(c, Exec(c, INIT, steps))
  {
    if steps != [] {
      Always(c, steps[..|steps| - 1]);
      D.Always(c, steps[..|steps| - 1]);
      StepKeeps(c, Exec(c, INIT, steps[..|steps| - 1]), steps[|steps| - 1]);
    }
  }

  lemma BacklogIdsDistinct(rows: seq<Row>, page: seq<Row>, candidates: set<Row>)
    requires DistinctIds(rows) && NoRepeats(page) && Elements(page) <= candidates && forall r ::
      r in candidates ==> r in rows
    ensures forall j, k :: 0 <= j < k < |page| ==> page[j].note.nid != page[k].note.nid
  {
    forall j, k | 0 <= j < k < |page| ensures page[j].note.nid != page[k].note.nid {
      assert page[j] in Elements(page) && page[k] in Elements(page);
      var a :| 0 <= a < |rows| && rows[a] == page[j];
      var b :| 0 <= b < |rows| && rows[b] == page[k];
    }
  }
}
