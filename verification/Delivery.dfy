/** What every run of the protocol keeps about requests, rows and publishes: one winner, one row, one publish. */
module Delivery {
  import opened Model
  import opened TtlStore
  import opened RedisServer
  import opened Repository
  import opened Protocol
  import opened Frames

  // ----- The invariant -----

  ghost predicate RowIs(rows: seq<Row>, note: Envelope, live: bool) {
    exists k :: 0 <= k < |rows| && rows[k].note == note && rows[k].live == live
  }

  ghost predicate Unpublished(published: seq<Packet>, n: NotificationId) {
    forall k :: 0 <= k < |published| ==> published[k].note.nid != n
  }

  ghost predicate PublishedTo(published: seq<Packet>, note: Envelope, owner: InstanceId) {
    exists k :: 0 <= k < |published| && published[k].note == note && published[k].inst == owner
  }

  ghost predicate PublishedSomewhere(published: seq<Packet>, note: Envelope) {
    exists k :: 0 <= k < |published| && published[k].note == note
  }

  ghost predicate Carries(q: Request, note: Envelope) {
    note == NoteOf(q.body, note.createdAt)
  }

  /** The row was inserted by this request and is neither published nor flagged. */
  ghost predicate Pending(rows: seq<Row>, published: seq<Packet>, q: Request, note: Envelope) {
    q.won && Carries(q, note) && RowIs(rows, note, false) && Unpublished(published, q.body.nid)
  }

  ghost predicate RequestOk(rows: seq<Row>, published: seq<Packet>, q: Request) {
    match q.pc
    case Rating => !q.won
    case Checking => !q.won
    case Inserting => !q.won
    case Marking(row) => if row.Some? then Pending(rows, published, q, row.value)
      else !q.won && HasRow(rows, q.body.nid)
    case Looking(row) => Pending(rows, published, q, row)
    case Probing(row, _) => Pending(rows, published, q, row)
    case Publishing(row, _) => Pending(rows, published, q, row)
    case Flagging(row, owner) => q.won && Carries(q, row) && RowIs(rows, row, false)
      && PublishedTo(published, row, owner)
    case Replied(reply) => ReplyOk(rows, published, q, reply)
    case Failed => q.won ==> HasRow(rows, q.body.nid)
  }

  ghost predicate ReplyOk(rows: seq<Row>, published: seq<Packet>, q: Request, reply: Reply) {
    match reply
    case TooManyRequests => !q.won
    case Reply(persisted, live) =>
      if persisted then
        q.won && exists note ::
          Carries(q, note) && RowIs(rows, note, live) && (live ==> PublishedSomewhere(published, note))
      else
        !q.won && !live && HasRow(rows, q.body.nid)
  }

  ghost predicate RequestsOk(rows: seq<Row>, published: seq<Packet>, requests: map<RequestId, Request>) {
    forall r :: r in requests ==> RequestOk(rows, published, requests[r])
  }

  ghost predicate OneWinner(requests: map<RequestId, Request>) {
    forall r, r' :: r in requests && r' in requests && SameWin(requests[r], requests[r']) ==> r == r'
  }

  ghost predicate SameWin(q: Request, q': Request) {
    q.won && q'.won && q.body.nid == q'.body.nid
  }

  /** No id is published twice, and only committed rows are, to their own user. */
  ghost predicate PublishesOk(rows: seq<Row>, published: seq<Packet>) {
    && (forall j, k :: 0 <= j < k < |published| ==> published[j].note.nid != published[k].note.nid)
    && (forall k ::
       0 <= k < |published| ==> HasNote(rows, published[k].note) && published[k].user == published[k].note.user)
  }

  ghost predicate HasNote(rows: seq<Row>, note: Envelope) {
    exists k :: 0 <= k < |rows| && rows[k].note == note
  }

  ghost predicate FlagsOk(rows: seq<Row>, published: seq<Packet>) {
    forall k :: 0 <= k < |rows| && rows[k].live ==> PublishedSomewhere(published, rows[k].note)
  }

  ghost predicate DedupOk(rows: seq<Row>, dedup: Store<NotificationId, string>) {
    forall n :: n in dedup ==> HasRow(rows, n)
  }

  ghost predicate Inv(s: State) {
    && Sound(s.db)
    && RequestsOk(s.db.rows, s.redis.channels.published, s.requests)
    && OneWinner(s.requests)
    && PublishesOk(s.db.rows, s.redis.channels.published)
    && FlagsOk(s.db.rows, s.redis.channels.published)
    && DedupOk(s.db.rows, s.redis.dedup)
  }

  // ----- How the parts move -----

  lemma HasRowKept(before: seq<Row>, after: seq<Row>, n: NotificationId)
    requires Preserves(before, after) && HasRow(before, n)
    ensures HasRow(after, n)
  {
    var k :| 0 <= k < |before| && before[k].note.nid == n;
    assert after[k].note.nid == n;
  }

  lemma HasNoteKept(before: seq<Row>, after: seq<Row>, note: Envelope)
    requires Preserves(before, after) && HasNote(before, note)
    ensures HasNote(after, note)
  {
    var k :| 0 <= k < |before| && before[k].note == note;
    assert after[k].note == note;
  }

  /** The flag of the row this request inserted does not change. */
  ghost predicate SameFlag(before: seq<Row>, after: seq<Row>, q: Request)
    requires Preserves(before, after)
  {
    q.won ==> forall k :: 0 <= k < |before| && before[k].note.nid == q.body.nid ==> after[k].live == before[k].live
  }

  lemma RowIsKept(before: seq<Row>, after: seq<Row>, q: Request, note: Envelope, live: bool)
    requires Preserves(before, after) && SameFlag(before, after, q)
    requires q.won && Carries(q, note) && RowIs(before, note, live)
    ensures RowIs(after, note, live)
  {
    var k :| 0 <= k < |before| && before[k].note == note && before[k].live == live;
    assert after[k].note == note && after[k].live == live;
  }

  lemma RequestOkKept(before: seq<Row>, after: seq<Row>, published: seq<Packet>, more: seq<Packet>, q: Request)
    requires RequestOk(before, published, q)
    requires Preserves(before, after) && SameFlag(before, after, q)
    requires q.won ==> Unpublished(more, q.body.nid)
    ensures RequestOk(after, published + more, q)
  {
    var all := published + more;
    assert forall k :: 0 <= k < |published| ==> all[k] == published[k];
    forall note, live | q.won && Carries(q, note) && RowIs(before, note, live) ensures RowIs(after, note, live) {
      RowIsKept(before, after, q, note, live);
    }
    if HasRow(before, q.body.nid) { HasRowKept(before, after, q.body.nid); }
    match q.pc
    case Flagging(row, owner) =>
      var k :| 0 <= k < |published| && published[k].note == row && published[k].inst == owner;
      assert all[k].note == row && all[k].inst == owner;
    case Replied(Reply(true, live)) =>
      var note :| Carries(q, note) && RowIs(before, note, live) && (live ==> PublishedSomewhere(published, note));
      if live {
        var k :| 0 <= k < |published| && published[k].note == note;
        assert all[k].note == note;
      }
      assert Carries(q, note) && RowIs(after, note, live) && (live ==> PublishedSomewhere(all, note));
    case _ =>
  }

  lemma PublishesKept(before: seq<Row>, after: seq<Row>, published: seq<Packet>)
    requires PublishesOk(before, published) && Preserves(before, after)
    ensures PublishesOk(after, published)
  {
    forall k | 0 <= k < |published| ensures HasNote(after, published[k].note) {
      HasNoteKept(before, after, published[k].note);
    }
  }

  lemma DedupKept(before: seq<Row>, after: seq<Row>, dedup: Store<NotificationId, string>)
    requires DedupOk(before, dedup) && Preserves(before, after)
    ensures DedupOk(after, dedup)
  {
    forall n | n in dedup ensures HasRow(after, n) { HasRowKept(before, after, n); }
  }

  // ----- One lemma per kind of step -----

  lemma NewRequest(s: State, r: RequestId, q: Request)
    requires Inv(s) && r !in s.requests && q.pc.Rating? && !q.won
    ensures Inv(s.(requests := s.requests[r := q]))
  {
    hide Sound, PublishesOk, FlagsOk, DedupOk;
  }

  lemma FailedRequest(s: State, r: RequestId)
    requires Inv(s) && r in s.requests
    ensures Inv(s.(requests := s.requests[r := s.requests[r].(pc := Failed)]))
  {
    hide Sound, PublishesOk, FlagsOk, DedupOk;
    var q := s.requests[r];
    assert RequestOk(s.db.rows, s.redis.channels.published, q);
    if q.won { WinnerHasRow(s.db.rows, s.redis.channels.published, q); }
  }

  lemma WinnerHasRow(rows: seq<Row>, published: seq<Packet>, q: Request)
    requires RequestOk(rows, published, q) && q.won
    ensures HasRow(rows, q.body.nid)
  {}

  /** Recording reads keeps the invariant: it touches neither flags nor notes. */
  lemma ReadsKeep(s: State, t: State)
    requires Inv(s) && t.requests == s.requests && SameBesides(s.redis, t.redis) && OnlyReads(s.db, t.db)
    ensures Inv(t) && Preserves(s.db.rows, t.db.rows)
  {
    if t.db != s.db {
      var n, u, at :| t.db == RecordRead(s.db, n, u, at);
      RecordReadKeeps(s.db, n, u, at);
    }
    var published := s.redis.channels.published;
    assert |s.db.rows| == |t.db.rows| && forall k :: 0 <= k < |s.db.rows| ==> t.db.rows[k].live == s.db.rows[k].live;
    hide Sound, RecordRead, PublishesOk, DedupOk, RequestOk;
    assert published + [] == published;
    forall r | r in t.requests ensures RequestOk(t.db.rows, published, t.requests[r]) {
      RequestOkKept(s.db.rows, t.db.rows, published, [], s.requests[r]);
    }
    PublishesKept(s.db.rows, t.db.rows, published);
    DedupKept(s.db.rows, t.db.rows, s.redis.dedup);
  }

  /** A request step that leaves rows and publishes alone moves only its own request. */
  lemma QuietAdvance(s: State, t: State, r: RequestId)
    requires Inv(s) && r in s.requests && r in t.requests && t.requests == s.requests[r := t.requests[r]]
    requires t.db == s.db && t.redis.channels.published == s.redis.channels.published
    requires DedupOk(t.db.rows, t.redis.dedup)
    requires t.requests[r].won == s.requests[r].won && t.requests[r].body == s.requests[r].body
    requires RequestOk(t.db.rows, t.redis.channels.published, t.requests[r])
    ensures Inv(t)
  {
    hide Sound, PublishesOk, FlagsOk, DedupOk, RequestOk;
    assert forall r' ::
      r' in t.requests ==> t.requests[r'].won == s.requests[r'].won && t.requests[r'].body == s.requests[r'].body;
  }

  lemma InsertingKeeps(c: Config, s: State, r: RequestId, stamp: Time)
    requires Inv(s) && r in s.requests && s.requests[r].pc.Inserting?
    ensures Inv(Advanced(c, s, r, stamp)) && Preserves(s.db.rows, Advanced(c, s, r, stamp).db.rows)
  {
    var q, t := s.requests[r], Advanced(c, s, r, stamp);
    var published := s.redis.channels.published;
    var note := NoteOf(q.body, stamp);
    InsertKeeps(s.db, note);
    assert published + [] == published;
    forall r' | r' in t.requests ensures RequestOk(t.db.rows, t.redis.channels.published, t.requests[r']) {
      if r' != r {
        RequestOkKept(s.db.rows, t.db.rows, published, [], s.requests[r']);
      } else if !HasRow(s.db.rows, q.body.nid) {
        assert t.db.rows[|s.db.rows|] == Row(note, false, None);
        forall k | 0 <= k < |published| ensures published[k].note.nid != q.body.nid {
          assert HasNote(s.db.rows, published[k].note);
        }
      }
    }
    forall r' | r' in s.requests && s.requests[r'].won ensures HasRow(s.db.rows, s.requests[r'].body.nid) {
      assert RequestOk(s.db.rows, published, s.requests[r']);
      WinnerHasRow(s.db.rows, published, s.requests[r']);
    }
    PublishesKept(s.db.rows, t.db.rows, s.redis.channels.published);
    DedupKept(s.db.rows, t.db.rows, s.redis.dedup);
  }

  lemma PublishingKeeps(c: Config, s: State, r: RequestId, stamp: Time)
    requires Inv(s) && r in s.requests && s.requests[r].pc.Publishing?
    ensures Inv(Advanced(c, s, r, stamp))
  {
    var q, t := s.requests[r], Advanced(c, s, r, stamp);
    var published := s.redis.channels.published;
    assert RequestOk(s.db.rows, published, q);
    var p := t.redis.channels.published[|published|];
    assert t.redis.channels.published == published + [p];
    assert p.note == q.pc.row2 && p.inst == q.pc.owner2 && p.user == q.body.user;
    forall r' | r' in t.requests ensures RequestOk(t.db.rows, t.redis.channels.published, t.requests[r']) {
      if r' != r {
        RequestOkKept(s.db.rows, t.db.rows, published, [p], s.requests[r']);
      } else {
        assert PublishedTo(t.redis.channels.published, p.note, p.inst);
      }
    }
    assert HasNote(s.db.rows, p.note);
    forall k | 0 <= k < |t.db.rows| && t.db.rows[k].live
      ensures PublishedSomewhere(t.redis.channels.published, t.db.rows[k].note)
    {
      var j :| 0 <= j < |published| && published[j].note == s.db.rows[k].note;
      assert t.redis.channels.published[j] == published[j];
    }
  }

  lemma FlaggingKeeps(c: Config, s: State, r: RequestId, stamp: Time)
    requires Inv(s) && r in s.requests && s.requests[r].pc.Flagging?
    ensures Inv(Advanced(c, s, r, stamp)) && Preserves(s.db.rows, Advanced(c, s, r, stamp).db.rows)
  {
    var q, t := s.requests[r], Advanced(c, s, r, stamp);
    var published, row := s.redis.channels.published, q.pc.row3;
    assert RequestOk(s.db.rows, published, q);
    MarkLiveKeeps(s.db, row.nid);
    assert published + [] == published;
    forall r' | r' in t.requests ensures RequestOk(t.db.rows, t.redis.channels.published, t.requests[r']) {
      if r' != r {
        RequestOkKept(s.db.rows, t.db.rows, published, [], s.requests[r']);
      } else {
        var k :| 0 <= k < |s.db.rows| && s.db.rows[k].note == row && s.db.rows[k].live == false;
        assert t.db.rows[k].note == row && t.db.rows[k].live;
        assert Carries(q, row) && RowIs(t.db.rows, row, true) && PublishedSomewhere(published, row);
      }
    }
    forall k | 0 <= k < |t.db.rows| && t.db.rows[k].live ensures PublishedSomewhere(published, t.db.rows[k].note) {
      if t.db.rows[k].note.nid == row.nid {
        var j :| 0 <= j < |s.db.rows| && s.db.rows[j].note == row;
        assert k == j;
      }
    }
    PublishesKept(s.db.rows, t.db.rows, s.redis.channels.published);
    DedupKept(s.db.rows, t.db.rows, s.redis.dedup);
  }

  lemma AdvanceKeeps(c: Config, s: State, r: RequestId, stamp: Time)
    requires Inv(s) && r in s.requests
    ensures Inv(Advanced(c, s, r, stamp)) && Preserves(s.db.rows, Advanced(c, s, r, stamp).db.rows)
  {
    hide Sound, PublishesOk, FlagsOk, OneWinner;
    var q, t := s.requests[r], Advanced(c, s, r, stamp);
    assert RequestOk(s.db.rows, s.redis.channels.published, q);
    match q.pc
    case Inserting => InsertingKeeps(c, s, r, stamp);
    case Publishing(_, _) => PublishingKeeps(c, s, r, stamp);
    case Flagging(_, _) => FlaggingKeeps(c, s, r, stamp);
    case Marking(row) =>
      if row.Some? { WinnerHasRow(s.db.rows, s.redis.channels.published, q); }
      QuietAdvance(s, t, r);
    case Looking(row) => QuietAdvance(s, t, r);
    case Probing(row, _) => QuietAdvance(s, t, r);
    case Checking =>
      QuietAdvance(s, t, r);
    case Rating => QuietAdvance(s, t, r);
    case Replied(_) => assert t.requests == s.requests;
    case Failed => assert t.requests == s.requests;
  }

  lemma StepKeeps(c: Config, s: State, step: Step)
    requires Inv(s)
    ensures Inv(Apply(c, s, step)) && Preserves(s.db.rows, Apply(c, s, step).db.rows)
  {
    match step
    case Advance(r, stamp) => if RequestLive(s, r) { AdvanceKeeps(c, s, r, stamp); }
    case Act(x, input) => if SessionLive(s, x) { ActFrame(c, s, x, input); ReadsKeep(s, Acted(c, s, x, input)); }
    case Post(r, i, caller, body) =>
      if r !in s.requests && IsRunning(s, i) {
        NewRequest(s, r, Request(i, s.instances[i].epoch, caller, body, Rating, false));
      }
    case FailRequest(r) => if r in s.requests { FailedRequest(s, r); }
    case _ => RestFrame(c, s, step);
  }

  lemma {:induction false} Always(c: Config, steps: seq<Step>)
    ensures Inv(Exec(c, INIT, steps))
  {
    if steps != [] {
      Always(c, steps[..|steps| - 1]);
      StepKeeps(c, Exec(c, INIT, steps[..|steps| - 1]), steps[|steps| - 1]);
    }
  }

  // ----- What clients of the API can rely on, in every run -----

  /** However many requests carry an id, concurrently or as retries: one row, one persisted reply, one publish. */
  lemma AtMostOnce(c: Config, s: State, n: NotificationId)
    requires Reachable(c, s)
    ensures
      && (forall j, k | 0 <= j < |s.db.rows| && 0 <= k < |s.db.rows| ::
            s.db.rows[j].note.nid == n && s.db.rows[k].note.nid == n ==> j == k)
      && (forall r, r' | r in s.requests && r' in s.requests ::
            PersistedReply(s.requests[r], n) && PersistedReply(s.requests[r'], n) ==> r == r')
      && var published := s.redis.channels.published;
         forall j, k | 0 <= j < |published| && 0 <= k < |published| ::
           published[j].note.nid == n && published[k].note.nid == n ==> j == k
  {
    var steps :| s == Exec(c, INIT, steps);
    Always(c, steps);
    hide Exec;
    forall r | r in s.requests && PersistedReply(s.requests[r], n) ensures s.requests[r].won {
      assert RequestOk(s.db.rows, s.redis.channels.published, s.requests[r]);
    }
  }

  ghost predicate PersistedReply(q: Request, n: NotificationId) {
    q.body.nid == n && q.pc.Replied? && q.pc.reply.Reply? && q.pc.reply.persisted
  }

  /** At every later moment too: a persisted reply has its row, with exactly the replied delivered_live flag,
      and a duplicate reply names a row that really is there. */
  lemma RepliesAreHonest(c: Config, s: State, r: RequestId)
    requires Reachable(c, s) && r in s.requests && s.requests[r].pc.Replied?
    ensures var q := s.requests[r];
      match q.pc.reply
      case TooManyRequests => true
      case Reply(true, live) => exists note :: Carries(q, note) && RowIs(s.db.rows, note, live)
      case Reply(false, live) => !live && HasRow(s.db.rows, q.body.nid)
  {
    var steps :| s == Exec(c, INIT, steps);
    Always(c, steps);
    hide Exec;
    assert RequestOk(s.db.rows, s.redis.channels.published, s.requests[r]);
  }

  lemma {:induction false} RepliesAreFinal(c: Config, s: State, more: seq<Step>, r: RequestId)
    requires r in s.requests && s.requests[r].pc.Replied?
    ensures r in Exec(c, s, more).requests && Exec(c, s, more).requests[r] == s.requests[r]
  {
    if more == [] { return; }
    var n := |more| - 1;
    RepliesAreFinal(c, s, more[..n], r);
    assert Exec(c, s, more) == Apply(c, Exec(c, s, more[..n]), more[n]);
    hide Exec, Apply;
    ReplyKept(c, Exec(c, s, more[..n]), more[n], r);
  }

  lemma ReplyKept(c: Config, s: State, step: Step, r: RequestId)
    requires r in s.requests && s.requests[r].pc.Replied?
    ensures r in Apply(c, s, step).requests && Apply(c, s, step).requests[r] == s.requests[r]
  {
    match step
    case Advance(r', stamp) =>
    case Act(x, input) => if SessionLive(s, x) { ActFrame(c, s, x, input); hide Acted; }
    case Post(_, _, _, _) =>
    case FailRequest(_) =>
    case _ => RestFrame(c, s, step); hide Apply;
  }

  /** Only committed rows are marked seen, so as long as no request committed an id, a request for it passes the
      guard and, uninterrupted, inserts it: no failure before the commit blocks a retry. */
  lemma UncommittedIdsAreNeverBlocked(c: Config, s: State, r: RequestId, stamp: Time)
    requires Reachable(c, s)
    requires RequestLive(s, r) && s.requests[r].pc.Checking? && !HasRow(s.db.rows, s.requests[r].body.nid)
    ensures var t := Apply(c, Apply(c, s, Advance(r, stamp)), Advance(r, stamp));
      t.requests[r].won && HasRow(t.db.rows, s.requests[r].body.nid)
  {
    var steps :| s == Exec(c, INIT, steps);
    Always(c, steps);
    hide Exec;
    var q := s.requests[r];
    assert q.body.nid !in s.redis.dedup;
    assert Apply(c, s, Advance(r, stamp)).requests[r] == q.(pc := Inserting);
    InsertKeeps(s.db, NoteOf(q.body, stamp));
  }

  lemma ExecSplit(c: Config, s: State, steps: seq<Step>, step: Step)
    ensures Exec(c, s, steps + [step]) == Apply(c, Exec(c, s, steps), step)
  {
    assert (steps + [step])[..|steps|] == steps;
  }

  lemma {:induction false} ExecJoin(c: Config, s: State, steps: seq<Step>, more: seq<Step>)
    ensures Exec(c, s, steps + more) == Exec(c, Exec(c, s, steps), more)
  {
    hide Apply;
    if more == [] {
      assert steps + more == steps;
    } else {
      var n := |more| - 1;
      ExecJoin(c, s, steps, more[..n]);
      assert (steps + more)[..|steps + more| - 1] == steps + more[..n];
    }
  }

  /** A committed row stays, unchanged but for becoming live or read. */
  lemma {:induction false} RowsPersist(c: Config, s: State, more: seq<Step>)
    requires Inv(s)
    ensures Inv(Exec(c, s, more)) && Preserves(s.db.rows, Exec(c, s, more).db.rows)
  {
    if more == [] { return; }
    var n := |more| - 1;
    RowsPersist(c, s, more[..n]);
    var t := Exec(c, s, more[..n]);
    assert Exec(c, s, more) == Apply(c, t, more[n]);
    hide Exec, Apply, Inv;
    StepKeeps(c, t, more[n]);
    PreservesTransitive(s.db.rows, t.db.rows, Exec(c, s, more).db.rows);
  }

  /** In every run the read state agrees with the receipts, and a row once read is in no later unread query. */
  lemma ReadRowsStayRead(c: Config, s: State, more: seq<Step>, k: nat)
    requires Reachable(c, s) && k < |s.db.rows| && s.db.rows[k].readAt.Some?
    ensures ReadStateAgrees(Exec(c, s, more).db)
    ensures forall u :: forall r :: r in UnreadOf(Exec(c, s, more).db.rows, u) ==> r.note.nid != s.db.rows[k].note.nid
  {
    var steps :| s == Exec(c, INIT, steps);
    Always(c, steps);
    RowsPersist(c, s, more);
    var rows := Exec(c, s, more).db.rows;
    hide Exec;
    assert DistinctIds(rows);
    forall u, r | r in UnreadOf(rows, u) ensures r.note.nid != s.db.rows[k].note.nid {
      var j :| 0 <= j < |rows| && rows[j] == r;
      assert rows[k].readAt.Some?;
    }
  }
}
