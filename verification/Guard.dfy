/** The idempotency guard is invisible: every run with it is matched by one without. */
module Guard {
  import opened Model
  import opened TtlStore
  import opened RedisServer
  import opened RateLimiting
  import opened Repository
  import opened Protocol
  import opened Frames
  import D = Delivery

  ghost function Erase(s: State): State {
    s.(redis := s.redis.(dedup := map[]))
  }

  /** A step of the platform without the guard: whatever was marked seen is gone before the next step. */
  ghost function ApplyUnguarded(c: Config, s: State, step: Step): State {
    Erase(Apply(c, s, step))
  }

  ghost function ExecUnguarded(c: Config, s: State, steps: seq<Step>): State {
    if steps == [] then s
    else ApplyUnguarded(c, ExecUnguarded(c, s, steps[..|steps| - 1]), steps[|steps| - 1])
  }

  /** The request is about to be answered from the dedup cache. */
  ghost predicate Hits(s: State, step: Step) {
    && step.Advance? && RequestLive(s, step.r) && s.requests[step.r].pc.Checking?
    && Exists(s.redis.dedup, s.redis.now, s.requests[step.r].body.nid)
  }

  /** Without the guard such a request goes on to the insert, the conflict and the mark. */
  ghost function Matching(s: State, step: Step): seq<Step> {
    if Hits(s, step) then [step, step, step] else [step]
  }

  lemma PostErased(c: Config, redis: RedisState, db: Database, q: Request, stamp: Time)
    requires !(q.pc.Checking? && Exists(redis.dedup, redis.now, q.body.nid))
    ensures var (a, b) := (PostStep(c, redis, db, q, stamp), PostStep(c, redis.(dedup := map[]), db, q, stamp));
            b.0.(dedup := map[]) == a.0.(dedup := map[]) && b.1 == a.1 && b.2 == a.2
  {
    hide Insert, MarkLive, Publish, Bump, Admits;
    match q.pc
    case Rating =>
    case Checking =>
    case Inserting =>
    case Marking(_) =>
    case Looking(_) =>
    case Probing(_, _) =>
    case Publishing(_, _) =>
    case Flagging(_, _) =>
    case Replied(_) =>
    case Failed =>
  }

  lemma AdvanceErased(c: Config, s: State, r: RequestId, stamp: Time)
    requires r in s.requests
      && !(s.requests[r].pc.Checking? && Exists(s.redis.dedup, s.redis.now, s.requests[r].body.nid))
    ensures Erase(Advanced(c, s, r, stamp)) == Erase(Advanced(c, Erase(s), r, stamp))
  {
    PostErased(c, s.redis, s.db, s.requests[r], stamp);
    hide PostStep;
  }

  lemma SessionErased(c: Config, redis: RedisState, db: Database, conns: Conns, x: SessionId, q: Session, input: Input)
    ensures var (a, b) := (SessionStep(c, redis, db, conns, x, q, input),
                           SessionStep(c, redis.(dedup := map[]), db, conns, x, q, input));
            b.0 == a.0.(dedup := map[]) && b.1 == a.1 && b.2 == a.2 && b.3 == a.3
  {
    hide GoStep, AfterMessage, AfterBreak, Admits, Bump;
    match input
    case Break =>
    case Go =>
    case Page(_) =>
    case Receive(_) =>
    case HangUp =>
  }

  lemma ActErased(c: Config, s: State, x: SessionId, input: Input)
    requires SessionLive(s, x)
    ensures Erase(Acted(c, s, x, input)) == Erase(Acted(c, Erase(s), x, input))
  {
    var q := s.sessions[x];
    SessionErased(c, s.redis, s.db, s.instances[q.inst].conns, x, q, input);
    hide SessionStep;
  }

  lemma CanPickUpErased(s: State, k: nat)
    ensures CanPickUp(Erase(s), k) == CanPickUp(s, k)
  {}

  lemma PickUpErased(s: State, k: nat)
    requires CanPickUp(s, k) && CanPickUp(Erase(s), k)
    ensures PickedUp(Erase(s), k) == Erase(PickedUp(s, k))
  {
    hide CanPickUp, Without;
  }

  lemma CompleteErased(s: State, k: nat, ok: bool)
    requires k < |s.sending| && Up(s, s.sending[k].packet.inst, s.sending[k].packet.epoch)
    ensures Completed(Erase(s), k, ok) == Erase(Completed(s, k, ok))
  {
    hide Without;
  }

  lemma LoseWireErased(c: Config, s: State, k: nat)
    ensures Erase(Apply(c, s, LoseWire(k))) == Erase(Apply(c, Erase(s), LoseWire(k)))
  {
    var ch := s.redis.channels;
    assert Erase(s).redis.channels == ch;
    if k < |ch.wire| {
      var after := ch.(wire := Without(ch.wire, k), lost := ch.lost + [ch.wire[k]]);
      var t := s.(redis := s.redis.(channels := after));
      assert Apply(c, s, LoseWire(k)) == t;
      assert Apply(c, Erase(s), LoseWire(k)) == Erase(t);
    }
    hide Without, Apply;
  }

  lemma LoseSendingErased(c: Config, s: State, k: nat)
    ensures Erase(Apply(c, s, LoseSending(k))) == Erase(Apply(c, Erase(s), LoseSending(k)))
  {
    var ch := s.redis.channels;
    assert Erase(s).redis.channels == ch;
    if k < |s.sending| && !Up(s, s.sending[k].packet.inst, s.sending[k].packet.epoch) {
      var t := s.(sending := Without(s.sending, k),
        redis := s.redis.(channels := ch.(lost := ch.lost + [s.sending[k].packet])));
      assert Apply(c, s, LoseSending(k)) == t;
      assert Apply(c, Erase(s), LoseSending(k)) == Erase(t);
    }
    hide Without, Apply;
  }

  lemma WireErased(c: Config, s: State, step: Step)
    requires step.PickUp? || step.Complete?
    ensures Erase(Apply(c, s, step)) == Erase(Apply(c, Erase(s), step))
  {
    hide Without;
    match step
    case PickUp(k) =>
      CanPickUpErased(s, k);
      if CanPickUp(s, k) { PickUpErased(s, k); }
      hide CanPickUp, PickedUp;
    case Complete(k, ok) =>
      if k < |s.sending| && Up(s, s.sending[k].packet.inst, s.sending[k].packet.epoch) { CompleteErased(s, k, ok); }
      hide Completed;
  }

  lemma LifeErased(c: Config, s: State, step: Step)
    requires step.Boot? || step.Crash? || step.KeepInstanceAlive?
    ensures Erase(Apply(c, s, step)) == Erase(Apply(c, Erase(s), step))
  {
    match step
    case Boot(i) => BootErased(s, i); hide Booted;
    case Crash(i) => if i in s.instances { CrashErased(s, i); } hide Crashed;
    case KeepInstanceAlive(i) => KeepAliveErased(c, s, i); hide Apply, Erase;
  }

  lemma KeepAliveErased(c: Config, s: State, i: InstanceId)
    ensures Erase(Apply(c, s, KeepInstanceAlive(i))) == Erase(Apply(c, Erase(s), KeepInstanceAlive(i)))
  {}

  lemma BootErased(s: State, i: InstanceId)
    ensures Booted(Erase(s), i) == Erase(Booted(s, i))
  {}

  lemma CrashErased(s: State, i: InstanceId)
    requires i in s.instances
    ensures Crashed(Erase(s), i) == Erase(Crashed(s, i))
  {}

  lemma ShutdownErased(c: Config, s: State, step: Step)
    requires step.BeginShutdown? || step.TearDownEntry? || step.TearDownStatus?
    ensures Erase(Apply(c, s, step)) == Erase(Apply(c, Erase(s), step))
  {
    match step
    case BeginShutdown(_) =>
    case TearDownEntry(_, _) => TearDownErased(c, s, step); hide Apply;
    case TearDownStatus(_, _) => TearDownErased(c, s, step); hide Apply;
  }

  lemma TearDownErased(c: Config, s: State, step: Step)
    requires step.TearDownEntry? || step.TearDownStatus?
    ensures Erase(Apply(c, s, step)) == Erase(Apply(c, Erase(s), step))
  {}

  lemma ClockErased(c: Config, s: State, step: Step)
    requires step.Tick? || step.IssueTicket? || step.Post?
    ensures Erase(Apply(c, s, step)) == Erase(Apply(c, Erase(s), step))
  {
    match step
    case Tick(_) =>
    case Post(_, _, _, _) =>
    case IssueTicket(_, _) =>
  }

  lemma EntryErased(c: Config, s: State, step: Step)
    requires step.FailRequest? || step.Connect?
    ensures Erase(Apply(c, s, step)) == Erase(Apply(c, Erase(s), step))
  {
    match step
    case FailRequest(_) =>
    case Connect(_, _, _) =>
  }

  /** Nothing but a hit reads the dedup keys. */
  lemma StepErased(c: Config, s: State, step: Step)
    requires !Hits(s, step)
    ensures Erase(Apply(c, s, step)) == ApplyUnguarded(c, Erase(s), step)
  {
    match step
    case Advance(r, stamp) => if RequestLive(s, r) { AdvanceErased(c, s, r, stamp); hide Advanced; }
    case Act(x, input) => if SessionLive(s, x) { ActErased(c, s, x, input); hide Acted; }
    case Tick(_) => ClockErased(c, s, step); hide Apply;
    case IssueTicket(_, _) => ClockErased(c, s, step); hide Apply;
    case Post(_, _, _, _) => ClockErased(c, s, step); hide Apply;
    case FailRequest(_) => EntryErased(c, s, step); hide Apply;
    case Connect(_, _, _) => EntryErased(c, s, step); hide Apply;
    case LoseWire(k) => LoseWireErased(c, s, k); hide Apply;
    case LoseSending(k) => LoseSendingErased(c, s, k); hide Apply;
    case _ =>
      if step.PickUp? || step.Complete? { WireErased(c, s, step); }
      else if step.Boot? || step.Crash? || step.KeepInstanceAlive? { LifeErased(c, s, step); }
      else { ShutdownErased(c, s, step); }
      hide Apply;
  }

  /** One command of request `r`, which touches nothing but its own place. */
  lemma OneCommand(c: Config, s: State, r: RequestId, stamp: Time, q: Request, q': Request)
    requires RequestLive(s, r) && s.redis.dedup == map[] && s.requests[r] == q
    requires var (redis, db, after) := PostStep(c, s.redis, s.db, q, stamp);
      redis.(dedup := map[]) == s.redis && db == s.db && after == q'
    ensures ApplyUnguarded(c, s, Advance(r, stamp)) == s.(requests := s.requests[r := q'])
  {
    hide PostStep;
  }

  /** What a hit, and the three commands without the guard, make of the request. */
  lemma HitCommands(c: Config, redis: RedisState, db: Database, q: Request, stamp: Time)
    requires q.pc.Checking? && !q.won && HasRow(db.rows, q.body.nid) && redis.dedup == map[]
    ensures var (q1, q2) := (q.(pc := Inserting), q.(pc := Marking(None)));
      && PostStep(c, redis, db, q, stamp) == (redis, db, q1)
      && PostStep(c, redis, db, q1, stamp) == (redis, db, q2)
      && var (after, db', q3) := PostStep(c, redis, db, q2, stamp);
         after.(dedup := map[]) == redis && db' == db && q3 == q.(pc := Replied(Reply(false, false)))
  {
    hide HasRow;
  }

  lemma HitAnswered(c: Config, s: State, step: Step)
    requires Hits(s, step)
    ensures var q := s.requests[step.r];
      Erase(Apply(c, s, step)) == Erase(s).(requests := s.requests[step.r := q.(pc := Replied(Reply(false, false)))])
  {
    ApplyAdvance(c, s, step.r, step.stamp);
    hide Apply;
  }

  /** A hit is answered as the insert conflict would answer it, because only committed ids are marked. */
  lemma HitErased(c: Config, s: State, step: Step)
    requires D.Inv(s) && Hits(s, step)
    ensures Erase(Apply(c, s, step)) ==
            ApplyUnguarded(c, ApplyUnguarded(c, ApplyUnguarded(c, Erase(s), step), step), step)
  {
    var r, q, e := step.r, s.requests[step.r], Erase(s);
    assert D.RequestOk(s.db.rows, s.redis.channels.published, q);
    assert !q.won && HasRow(s.db.rows, q.body.nid);
    HitCommands(c, e.redis, e.db, q, step.stamp);
    HitAnswered(c, s, step);
    assert e.requests == s.requests && RequestLive(e, r) && step == Advance(r, step.stamp);
    hide D.Inv, HasRow, Apply, ApplyUnguarded, D.RequestOk, PostStep, Hits, Erase;
    ThreeCommands(c, e, r, step.stamp, q);
  }

  lemma ThreeCommands(c: Config, e: State, r: RequestId, stamp: Time, q: Request)
    requires RequestLive(e, r) && e.redis.dedup == map[] && e.requests[r] == q
    requires q.pc.Checking? && !q.won && HasRow(e.db.rows, q.body.nid)
    ensures var step := Advance(r, stamp);
      ApplyUnguarded(c, ApplyUnguarded(c, ApplyUnguarded(c, e, step), step), step)
      == e.(requests := e.requests[r := q.(pc := Replied(Reply(false, false)))])
  {
    var q1, q2, q3 := q.(pc := Inserting), q.(pc := Marking(None)), q.(pc := Replied(Reply(false, false)));
    HitCommands(c, e.redis, e.db, q, stamp);
    hide HasRow, Apply, ApplyUnguarded, PostStep;
    OneCommand(c, e, r, stamp, q, q1);
    var e1 := e.(requests := e.requests[r := q1]);
    OneCommand(c, e1, r, stamp, q1, q2);
    var e2 := e1.(requests := e1.requests[r := q2]);
    OneCommand(c, e2, r, stamp, q2, q3);
    assert e2.requests[r := q3] == e.requests[r := q3];
  }

  ghost function Translate(c: Config, steps: seq<Step>): seq<Step> {
    if steps == [] then []
    else
      var before := steps[..|steps| - 1];
      Translate(c, before) + Matching(Exec(c, INIT, before), steps[|steps| - 1])
  }

  lemma OneMore(c: Config, s: State, steps: seq<Step>, step: Step)
    ensures ExecUnguarded(c, s, steps + [step]) == ApplyUnguarded(c, ExecUnguarded(c, s, steps), step)
  {
    assert (steps + [step])[..|steps|] == steps;
  }

  lemma StepMatched(c: Config, s: State, done: seq<Step>, step: Step)
    requires D.Inv(s) && ExecUnguarded(c, INIT, done) == Erase(s)
    ensures ExecUnguarded(c, INIT, done + Matching(s, step)) == Erase(Apply(c, s, step))
  {
    hide Apply, Erase, ApplyUnguarded, ExecUnguarded, D.Inv;
    OneMore(c, INIT, done, step);
    if Hits(s, step) {
      HitErased(c, s, step);
      OneMore(c, INIT, done + [step], step);
      OneMore(c, INIT, done + [step] + [step], step);
      assert done + Matching(s, step) == done + [step] + [step] + [step];
    } else {
      StepErased(c, s, step);
    }
  }

  /** Same requests with the same replies, same tables, same messages, sessions and frames: the runs agree on everything
      but the dedup keys. */
  lemma {:induction false} GuardIsTransparent(c: Config, steps: seq<Step>)
    ensures ExecUnguarded(c, INIT, Translate(c, steps)) == Erase(Exec(c, INIT, steps))
  {
    if steps == [] { return; }
    var before, step := steps[..|steps| - 1], steps[|steps| - 1];
    GuardIsTransparent(c, before);
    D.Always(c, before);
    assert Exec(c, INIT, steps) == Apply(c, Exec(c, INIT, before), step);
    assert Translate(c, steps) == Translate(c, before) + Matching(Exec(c, INIT, before), step);
    hide Exec, Translate, Apply, Erase, Matching, ExecUnguarded, D.Inv;
    StepMatched(c, Exec(c, INIT, before), Translate(c, before), step);
  }
}
