/** The dedup cache in every run: an id is in it for a TTL after each time a request got the table's answer for it. */
module Seen {
  import opened Model
  import opened TtlStore
  import opened RedisServer
  import opened Repository
  import opened Protocol
  import opened Registry
  import opened Frames
  import V = Vetting

  /** The step marks the id: its request has the table's answer and is about to say so. */
  ghost predicate MarksNow(s: State, step: Step, n: NotificationId) {
    step.Advance? && RequestLive(s, step.r) && s.requests[step.r].pc.Marking? && s.requests[step.r].body.nid == n
  }

  /** Step `j` of the run marks the id. */
  ghost predicate Marks(c: Config, steps: seq<Step>, j: nat, n: NotificationId) {
    j < |steps| && MarksNow(At(c, steps, j), steps[j], n)
  }

  /** The id was marked less than a TTL before `now`. */
  ghost predicate Remembered(c: Config, steps: seq<Step>, n: NotificationId, now: Time) {
    exists j: nat :: Marks(c, steps, j, n) && now < At(c, steps, j).redis.now + c.dedupTtl
  }

  /** The key is there, visible until then, exactly if the last mark is a TTL older than then. */
  ghost predicate KeyOk(
    c: Config, steps: seq<Step>, dedup: Store<NotificationId, string>, now: Time, n: NotificationId)
  {
    forall t: Time :: now <= t ==> (Exists(dedup, t, n) <==> Remembered(c, steps, n, t))
  }

  ghost predicate Inv(c: Config, steps: seq<Step>, s: State) {
    forall n :: KeyOk(c, steps, s.redis.dedup, s.redis.now, n)
  }

  lemma MarksMore(c: Config, steps: seq<Step>, step: Step, j: nat, n: NotificationId)
    ensures j < |steps| ==>
      (Marks(c, steps + [step], j, n) <==> Marks(c, steps, j, n)) && At(c, steps + [step], j) == At(c, steps, j)
    ensures Marks(c, steps + [step], |steps|, n) <==> MarksNow(Exec(c, INIT, steps), step, n)
    ensures At(c, steps + [step], |steps|) == Exec(c, INIT, steps)
  {
    if j < |steps| { V.AtPrefix(c, steps, step, j); }
    V.AtEnd(c, steps, step);
    hide At, Exec, MarksNow;
  }

  /** One step more: what was remembered still is, and so is what the step marks. */
  lemma RememberedMore(c: Config, steps: seq<Step>, step: Step, n: NotificationId, t: Time)
    ensures var s := Exec(c, INIT, steps);
      Remembered(c, steps + [step], n, t) <==>
      Remembered(c, steps, n, t) || (MarksNow(s, step, n) && t < s.redis.now + c.dedupTtl)
  {
    var all := steps + [step];
    MarksMore(c, steps, step, |steps|, n);
    hide MarksNow, Exec;
    if Remembered(c, all, n, t) {
      var j: nat :| Marks(c, all, j, n) && t < At(c, all, j).redis.now + c.dedupTtl;
      MarksMore(c, steps, step, j, n);
    }
    if Remembered(c, steps, n, t) {
      var j: nat :| Marks(c, steps, j, n) && t < At(c, steps, j).redis.now + c.dedupTtl;
      MarksMore(c, steps, step, j, n);
      assert Marks(c, all, j, n);
    }
    hide At, Marks;
  }

  lemma PostMarks(c: Config, redis: RedisState, db: Database, q: Request, stamp: Time)
    ensures var dedup := PostStep(c, redis, db, q, stamp).0.dedup;
      if q.pc.Marking? then dedup == redis.dedup[q.body.nid := Cell("1", Some(redis.now + c.dedupTtl))]
      else dedup == redis.dedup
  {
    hide Insert, MarkLive, Publish;
    match q.pc
    case Rating =>
    case Checking =>
    case Inserting =>
    case Marking(_) =>
    case Looking(_) =>
    case Probing(_, _) =>
    case Publishing(_, _) =>
    case Flagging(_, _) =>
    case Replied(_) =>
    case Failed =>
  }

  lemma StepMarks(c: Config, s: State, step: Step)
    ensures var t := Apply(c, s, step);
      && s.redis.now <= t.redis.now
      && forall n :: Find(t.redis.dedup, n) ==
           if MarksNow(s, step, n) then Some(Cell("1", Some(t.redis.now + c.dedupTtl))) else Find(s.redis.dedup, n)
    ensures !step.Tick? ==> Apply(c, s, step).redis.now == s.redis.now
  {
    if step.Advance? {
      ApplyAdvance(c, s, step.r, step.stamp);
      hide Apply;
      if RequestLive(s, step.r) {
        AdvanceFrame(c, s, step.r, step.stamp);
        PostMarks(c, s.redis, s.db, s.requests[step.r], step.stamp);
      }
      hide PostStep;
    } else if step.Act? {
      ApplyAct(c, s, step.x, step.input);
      hide Apply;
      if SessionLive(s, step.x) { ActFrame(c, s, step.x, step.input); }
      hide Acted;
    } else if OfWire(step) {
      WireFrame(c, s, step);
      hide Apply;
    } else if OfInstance(step) {
      InstanceFrame(c, s, step);
      hide Apply;
    }
  }

  lemma {:induction false} TimeGoesOn(c: Config, steps: seq<Step>, j: nat)
    requires j <= |steps|
    ensures At(c, steps, j).redis.now <= Exec(c, INIT, steps).redis.now
  {
    if j == |steps| {
      assert steps[..j] == steps;
    } else {
      var n := |steps| - 1;
      TimeGoesOn(c, steps[..n], j);
      assert steps[..n][..j] == steps[..j];
      StepMarks(c, Exec(c, INIT, steps[..n]), steps[n]);
      hide Apply;
    }
  }

  lemma RememberedIsRecent(c: Config, steps: seq<Step>, n: NotificationId, t: Time)
    ensures Remembered(c, steps, n, t) ==> t < Exec(c, INIT, steps).redis.now + c.dedupTtl
  {
    if Remembered(c, steps, n, t) {
      var j: nat :| Marks(c, steps, j, n) && t < At(c, steps, j).redis.now + c.dedupTtl;
      TimeGoesOn(c, steps, j);
    }
    hide Exec, At;
  }

  lemma StepKeeps(c: Config, steps: seq<Step>, step: Step)
    ensures Inv(c, steps, Exec(c, INIT, steps)) ==> Inv(c, steps + [step], Apply(c, Exec(c, INIT, steps), step))
  {
    var s := Exec(c, INIT, steps);
    var t := Apply(c, s, step);
    hide Exec, Apply, KeyOk;
    if !Inv(c, steps, s) { return; }
    forall n ensures KeyOk(c, steps + [step], t.redis.dedup, t.redis.now, n) {
      KeyKeeps(c, steps, step, n);
    }
  }

  lemma KeyKeeps(c: Config, steps: seq<Step>, step: Step, n: NotificationId)
    ensures var s := Exec(c, INIT, steps); var t := Apply(c, s, step);
      KeyOk(c, steps, s.redis.dedup, s.redis.now, n) ==> KeyOk(c, steps + [step], t.redis.dedup, t.redis.now, n)
  {
    var s := Exec(c, INIT, steps);
    var t := Apply(c, s, step);
    StepMarks(c, s, step);
    assert MarksNow(s, step, n) ==> t.redis.now == s.redis.now;
    assert Find(t.redis.dedup, n) ==
      if MarksNow(s, step, n) then Some(Cell("1", Some(t.redis.now + c.dedupTtl))) else Find(s.redis.dedup, n);
    hide Exec, Apply, Remembered, MarksNow;
    if !KeyOk(c, steps, s.redis.dedup, s.redis.now, n) { return; }
    forall now: Time | t.redis.now <= now
      ensures Exists(t.redis.dedup, now, n) <==> Remembered(c, steps + [step], n, now)
    {
      RememberedMore(c, steps, step, n, now);
      RememberedIsRecent(c, steps, n, now);
    }
  }

  lemma {:induction false} Always(c: Config, steps: seq<Step>)
    ensures Inv(c, steps, Exec(c, INIT, steps))
  {
    if steps == [] {
      assert forall n, t: Time :: !Remembered(c, steps, n, t);
      return;
    }
    var before, step := steps[..|steps| - 1], steps[|steps| - 1];
    Always(c, before);
    assert steps == before + [step];
    assert Exec(c, INIT, steps) == Apply(c, Exec(c, INIT, before), step);
    hide Exec, Apply, Inv;
    StepKeeps(c, before, step);
  }

  /** In every run an id is seen exactly while the last mark of it is less than a TTL old. */
  lemma SeenIff(c: Config, steps: seq<Step>, s: State, n: NotificationId)
    requires s == Exec(c, INIT, steps)
    ensures Exists(s.redis.dedup, s.redis.now, n) <==> Remembered(c, steps, n, s.redis.now)
  {
    Always(c, steps);
    hide Exec, Remembered;
    assert KeyOk(c, steps, s.redis.dedup, s.redis.now, n);
  }

  // ----- Whoever was answered has marked -----

  ghost predicate WasMarked(c: Config, steps: seq<Step>, n: NotificationId) {
    exists j: nat :: Marks(c, steps, j, n)
  }

  /** The request is past the mark, or was answered from the cache. */
  ghost predicate PastMark(pc: PostPc) {
    pc.Looking? || pc.Probing? || pc.Publishing? || pc.Flagging? || (pc.Replied? && pc.reply.Reply?)
  }

  ghost predicate AllMarked(c: Config, steps: seq<Step>, requests: map<RequestId, Request>) {
    forall r :: r in requests && PastMark(requests[r].pc) ==> WasMarked(c, steps, requests[r].body.nid)
  }

  lemma WasMarkedStays(c: Config, steps: seq<Step>, step: Step, n: NotificationId)
    ensures WasMarked(c, steps, n) ==> WasMarked(c, steps + [step], n)
  {
    if WasMarked(c, steps, n) {
      var j: nat :| Marks(c, steps, j, n);
      MarksMore(c, steps, step, j, n);
    }
    hide Marks, At, Exec;
  }

  /** How a request gets past the mark: by its own, or because the cache knows the id. */
  lemma PostPasses(c: Config, redis: RedisState, db: Database, q: Request, stamp: Time)
    ensures var q' := PostStep(c, redis, db, q, stamp).2;
      && q'.body == q.body
      && (PastMark(q'.pc) ==>
            PastMark(q.pc) || q.pc.Marking? || (q.pc.Checking? && Exists(redis.dedup, redis.now, q.body.nid)))
  {
    hide Insert, MarkLive, Publish, Lookup, IsAlive, Exists;
    match q.pc
    case Rating =>
    case Checking =>
    case Inserting =>
    case Marking(_) =>
    case Looking(_) =>
    case Probing(_, _) =>
    case Publishing(_, _) =>
    case Flagging(_, _) =>
    case Replied(_) =>
    case Failed =>
  }

  lemma AdvancePasses(c: Config, steps: seq<Step>, r: RequestId, stamp: Time)
    ensures var s := Exec(c, INIT, steps);
      RequestLive(s, r) && AllMarked(c, steps, s.requests) ==>
        AllMarked(c, steps + [Advance(r, stamp)], Advanced(c, s, r, stamp).requests)
  {
    var s, step := Exec(c, INIT, steps), Advance(r, stamp);
    if !RequestLive(s, r) || !AllMarked(c, steps, s.requests) { return; }
    var q := s.requests[r];
    PostPasses(c, s.redis, s.db, q, stamp);
    SeenIff(c, steps, s, q.body.nid);
    MarksMore(c, steps, step, |steps|, q.body.nid);
    RememberedWasMarked(c, steps, q.body.nid, s.redis.now);
    var t := Advanced(c, s, r, stamp);
    assert t.requests == s.requests[r := PostStep(c, s.redis, s.db, q, stamp).2];
    hide Exec, Advanced, PostStep, Remembered, PastMark, Exists, Marks, At;
    forall r' | r' in t.requests && PastMark(t.requests[r'].pc)
      ensures WasMarked(c, steps + [step], t.requests[r'].body.nid)
    {
      WasMarkedStays(c, steps, step, t.requests[r'].body.nid);
    }
  }

  lemma RememberedWasMarked(c: Config, steps: seq<Step>, n: NotificationId, t: Time)
    ensures Remembered(c, steps, n, t) ==> WasMarked(c, steps, n)
  {
    hide Marks, At;
  }

  lemma StepMarked(c: Config, steps: seq<Step>, step: Step)
    ensures var s := Exec(c, INIT, steps);
      AllMarked(c, steps, s.requests) ==> AllMarked(c, steps + [step], Apply(c, s, step).requests)
  {
    var s := Exec(c, INIT, steps);
    var t := Apply(c, s, step);
    if !AllMarked(c, steps, s.requests) { return; }
    if step.Advance? {
      ApplyAdvance(c, s, step.r, step.stamp);
      AdvancePasses(c, steps, step.r, step.stamp);
    } else {
      V.RestQuiet(c, s, step);
    }
    hide Exec, Apply, Advanced, WasMarked, V.GoOn;
    forall n ensures WasMarked(c, steps, n) ==> WasMarked(c, steps + [step], n) {
      WasMarkedStays(c, steps, step, n);
    }
  }

  lemma {:induction false} AlwaysMarked(c: Config, steps: seq<Step>)
    ensures AllMarked(c, steps, Exec(c, INIT, steps).requests)
  {
    if steps == [] { return; }
    var before, step := steps[..|steps| - 1], steps[|steps| - 1];
    AlwaysMarked(c, before);
    assert steps == before + [step];
    assert Exec(c, INIT, steps) == Apply(c, Exec(c, INIT, before), step);
    hide Exec, Apply, AllMarked;
    StepMarked(c, before, step);
  }

  /** In every run: an id that some request was answered about, other than by 429, was marked seen. */
  lemma AnsweredIdsWereMarked(c: Config, steps: seq<Step>, s: State, r: RequestId)
    requires s == Exec(c, INIT, steps) && r in s.requests && s.requests[r].pc.Replied? && s.requests[r].pc.reply.Reply?
    ensures exists j: nat :: Marks(c, steps, j, s.requests[r].body.nid)
  {
    AlwaysMarked(c, steps);
    hide Exec, Marks;
    assert WasMarked(c, steps, s.requests[r].body.nid);
  }

  /** In every run the guard answers a request from the cache exactly while its id is remembered, and lets it go on to
      the table otherwise. */
  lemma GuardAnswersIff(c: Config, steps: seq<Step>, s: State, r: RequestId, stamp: Time)
    requires s == Exec(c, INIT, steps) && RequestLive(s, r) && s.requests[r].pc.Checking?
    ensures Apply(c, s, Advance(r, stamp)).requests[r].pc ==
            if Remembered(c, steps, s.requests[r].body.nid, s.redis.now) then Replied(Reply(false, false))
              else Inserting
  {
    SeenIff(c, steps, s, s.requests[r].body.nid);
    hide Exec, Remembered;
  }
}
