/** Which step of a run committed a row: the backlog query sees exactly the rows committed before it. */
module Commits {
  import opened Model
  import opened RedisServer
  import opened Repository
  import opened Protocol
  import opened Frames
  import D = Delivery
  import I = Isolation
  import Q = Queries
  import V = Vetting

  /** Request `r` is about to insert this row, just as it was posted, and no row has its id. */
  ghost predicate Inserts(s: State, r: RequestId, stamp: Time, note: Envelope) {
    && RequestLive(s, r) && s.requests[r].pc.Inserting?
    && !HasRow(s.db.rows, note.nid)
    && var b := s.requests[r].body; note == Envelope(b.nid, b.user, b.kind, b.payload, stamp)
  }

  /** Step `i` of the run commits the row of `note`. */
  ghost predicate Commits(c: Config, steps: seq<Step>, i: nat, note: Envelope) {
    i < |steps| && steps[i].Advance? && Inserts(At(c, steps, i), steps[i].r, steps[i].stamp, note)
  }

  lemma PostRows(c: Config, redis: RedisState, db: Database, q: Request, stamp: Time)
    ensures var rows := PostStep(c, redis, db, q, stamp).1.rows;
      if q.pc.Inserting? && !HasRow(db.rows, q.body.nid)
        then rows == db.rows + [Row(NoteOf(q.body, stamp), false, None)]
      else |rows| == |db.rows|
  {
    hide HasRow;
    match q.pc
    case Rating =>
    case Checking =>
    case Inserting =>
    case Marking(_) =>
    case Looking(_) =>
    case Probing(_, _) =>
    case Publishing(_, _) =>
    case Flagging(_, _) =>
    case Replied(_) =>
    case Failed =>
  }

  /** The table grows by an insert of a new id only. */
  lemma StepRows(c: Config, s: State, step: Step)
    ensures var rows := Apply(c, s, step).db.rows;
      if step.Advance? && RequestLive(s, step.r) && s.requests[step.r].pc.Inserting?
         && !HasRow(s.db.rows, s.requests[step.r].body.nid)
      then rows == s.db.rows + [Row(NoteOf(s.requests[step.r].body, step.stamp), false, None)]
      else |rows| == |s.db.rows|
  {
    hide HasRow;
    if step.Advance? {
      ApplyAdvance(c, s, step.r, step.stamp);
      hide Apply;
      if RequestLive(s, step.r) { PostRows(c, s.redis, s.db, s.requests[step.r], step.stamp); }
      hide PostStep;
    } else if step.Act? {
      ApplyAct(c, s, step.x, step.input);
      hide Apply;
      if SessionLive(s, step.x) { ActFrame(c, s, step.x, step.input); }
      hide Acted;
    } else if !step.Post? && !step.FailRequest? {
      RestFrame(c, s, step);
      hide Apply;
    }
  }

  lemma NewNote(c: Config, s: State, step: Step, note: Envelope)
    requires D.Inv(s) && D.HasNote(Apply(c, s, step).db.rows, note) && !D.HasNote(s.db.rows, note)
    ensures step.Advance? && Inserts(s, step.r, step.stamp, note)
  {
    var rows := Apply(c, s, step).db.rows;
    D.StepKeeps(c, s, step);
    StepRows(c, s, step);
    hide Apply, D.Inv;
    assert forall k :: 0 <= k < |s.db.rows| ==> rows[k].note == s.db.rows[k].note && s.db.rows[k].note != note;
  }

  lemma CommitsStays(c: Config, steps: seq<Step>, step: Step, i: nat, note: Envelope)
    requires Commits(c, steps, i, note)
    ensures Commits(c, steps + [step], i, note)
  {
    V.AtPrefix(c, steps, step, i);
    hide At, Inserts;
  }

  /** Every row in the table was committed by a step of the run, with the fields its request was posted with. */
  lemma {:induction false} RowsWereCommitted(c: Config, steps: seq<Step>, note: Envelope) returns (i: nat)
    requires D.HasNote(Exec(c, INIT, steps).db.rows, note)
    ensures Commits(c, steps, i, note)
  {
    if steps == [] { assert false; }
    var before, step := steps[..|steps| - 1], steps[|steps| - 1];
    var s := Exec(c, INIT, before);
    assert steps == before + [step];
    assert Exec(c, INIT, steps) == Apply(c, s, step);
    V.AtEnd(c, before, step);
    D.Always(c, before);
    hide Exec, Apply, At, D.HasNote, Inserts, D.Inv;
    if D.HasNote(s.db.rows, note) {
      i := RowsWereCommitted(c, before, note);
      CommitsStays(c, before, step, i, note);
    } else {
      NewNote(c, s, step, note);
      i := |before|;
    }
  }

  /** So in every run a live frame has the id, user, kind and payload of the request that was posted. */
  lemma FramesAreAsPosted(c: Config, steps: seq<Step>, s: State, k: nat) returns (i: nat)
    requires s == Exec(c, INIT, steps) && k < |s.frames|
    ensures Commits(c, steps, i, s.frames[k].note)
  {
    assert Reachable(c, s);
    I.FramesAreFaithfulAndIsolated(c, s, k);
    hide Exec;
    i := RowsWereCommitted(c, steps, s.frames[k].note);
  }

  lemma RowsKept(c: Config, steps: seq<Step>, a: nat, b: nat)
    requires a <= b <= |steps|
    ensures D.Inv(At(c, steps, a)) && Preserves(At(c, steps, a).db.rows, At(c, steps, b).db.rows)
  {
    D.Always(c, steps[..a]);
    assert steps[..b] == steps[..a] + steps[a..b];
    D.ExecJoin(c, INIT, steps[..a], steps[a..b]);
    D.RowsPersist(c, At(c, steps, a), steps[a..b]);
    hide Exec, D.Inv, Preserves;
  }

  lemma AfterCommit(c: Config, steps: seq<Step>, i: nat, note: Envelope)
    requires Commits(c, steps, i, note)
    ensures D.HasNote(At(c, steps, i + 1).db.rows, note)
  {
    var s := At(c, steps, i);
    assert steps[..i + 1][..i] == steps[..i];
    assert At(c, steps, i + 1) == Apply(c, s, steps[i]);
    StepRows(c, s, steps[i]);
    hide Exec, Apply, At;
    var rows := Apply(c, s, steps[i]).db.rows;
    assert rows[|rows| - 1].note == note;
  }

  /** A row is in the table at exactly the moments after its commit. */
  lemma CommittedIff(c: Config, steps: seq<Step>, i: nat, m: nat, note: Envelope)
    requires Commits(c, steps, i, note) && m <= |steps|
    ensures D.HasNote(At(c, steps, m).db.rows, note) <==> i < m
  {
    AfterCommit(c, steps, i, note);
    if i < m {
      RowsKept(c, steps, i + 1, m);
      D.HasNoteKept(At(c, steps, i + 1).db.rows, At(c, steps, m).db.rows, note);
    } else {
      RowsKept(c, steps, m, i);
      NoNoteBefore(At(c, steps, m).db.rows, At(c, steps, i).db.rows, note);
    }
    hide At, D.Inv, D.HasNote, Preserves, HasRow;
  }

  lemma NoNoteBefore(before: seq<Row>, after: seq<Row>, note: Envelope)
    requires Preserves(before, after) && !HasRow(after, note.nid)
    ensures !D.HasNote(before, note)
  {
    assert forall k :: 0 <= k < |before| ==> after[k].note == before[k].note;
  }

  /** The commit of the row comes before the session's backlog query. */
  ghost predicate CommittedBeforeQuery(c: Config, steps: seq<Step>, x: SessionId, q: Session, note: Envelope)
    requires q.snapshot.Some?
  {
    exists i: nat, m: nat ::
      i < m && Commits(c, steps, i, note) && Q.Queries(c, steps, m, x, q.snapshot.value, q.backlog)
  }

  /** A session's backlog query saw a row exactly when the row was committed before the query. */
  lemma SeenIff(c: Config, steps: seq<Step>, x: SessionId, note: Envelope)
    requires x in Exec(c, INIT, steps).sessions && Exec(c, INIT, steps).sessions[x].snapshot.Some?
    ensures var q := Exec(c, INIT, steps).sessions[x];
      D.HasNote(q.snapshot.value, note) <==> CommittedBeforeQuery(c, steps, x, q, note)
  {
    var q := Exec(c, INIT, steps).sessions[x];
    forall i: nat, m: nat | Commits(c, steps, i, note) && Q.Queries(c, steps, m, x, q.snapshot.value, q.backlog)
      ensures D.HasNote(q.snapshot.value, note) <==> i < m
    {
      CommittedIff(c, steps, i, m, note);
    }
    if D.HasNote(q.snapshot.value, note) {
      Q.BacklogIsOldestUnread(c, steps, Exec(c, INIT, steps), x);
      var j: nat, m: nat :|
        j < m && Q.Registers(c, steps, j, x) && Q.Queries(c, steps, m, x, q.snapshot.value, q.backlog);
      D.HasNoteKept(q.snapshot.value, Exec(c, INIT, steps).db.rows, note);
      var i := RowsWereCommitted(c, steps, note);
    }
  }

  /** So the row of a live frame, however early the frame came, was committed by some step of the run, and is in what
      the query saw exactly when that step came before the query. */
  lemma FrameSeenIff(c: Config, steps: seq<Step>, s: State, k: nat) returns (i: nat, m: nat)
    requires s == Exec(c, INIT, steps) && k < |s.frames|
    requires s.frames[k].x in s.sessions && s.sessions[s.frames[k].x].snapshot.Some?
    ensures var x, q := s.frames[k].x, s.sessions[s.frames[k].x];
      && Commits(c, steps, i, s.frames[k].note) && Q.Queries(c, steps, m, x, q.snapshot.value, q.backlog)
      && (D.HasNote(q.snapshot.value, s.frames[k].note) <==> i < m)
  {
    var f := s.frames[k];
    var q := s.sessions[f.x];
    assert Reachable(c, s);
    I.FramesAreFaithfulAndIsolated(c, s, k);
    Q.BacklogIsOldestUnread(c, steps, s, f.x);
    var j: nat, n: nat :|
      j < n && Q.Registers(c, steps, j, f.x) && Q.Queries(c, steps, n, f.x, q.snapshot.value, q.backlog);
    m := n;
    i := RowsWereCommitted(c, steps, f.note);
    CommittedIff(c, steps, i, m, f.note);
    hide Exec;
  }
}
