/** Every publish follows its own request's lookup, which named the instance, and then its check, which found it
    alive. So does every delivered_live flag. Both are told by the steps of the run that they were. */
module Vetting {
  import opened Model
  import opened TtlStore
  import opened RedisServer
  import opened Registry
  import opened Repository
  import opened Protocol
  import opened Frames
  import D = Delivery

  /** Step `k` of the run is a command of request `r`. */
  ghost predicate Runs(c: Config, steps: seq<Step>, k: nat, r: RequestId) {
    k < |steps| && steps[k].Advance? && steps[k].r == r && RequestLive(At(c, steps, k), r)
  }

  /** Step `j` is the lookup of request `r` for `row` and answers `owner`. The row is committed and not
      yet published. */
  ghost predicate LooksUp(c: Config, steps: seq<Step>, j: nat, r: RequestId, row: Envelope, owner: InstanceId) {
    Runs(c, steps, j, r) &&
    var s := At(c, steps, j);
    && s.requests[r].pc == Looking(row) && Lookup(s.redis, row.user) == Some(owner)
    && D.HasNote(s.db.rows, row) && D.Unpublished(s.redis.channels.published, row.nid)
  }

  /** Step `k` is the check of request `r` for `row` and finds `owner` alive. */
  ghost predicate FindsAlive(c: Config, steps: seq<Step>, k: nat, r: RequestId, row: Envelope, owner: InstanceId) {
    Runs(c, steps, k, r) &&
    var s := At(c, steps, k);
    s.requests[r].pc == Probing(row, owner) && IsAlive(s.redis, owner)
  }

  ghost predicate Named(c: Config, steps: seq<Step>, r: RequestId, row: Envelope, owner: InstanceId) {
    exists j: nat :: LooksUp(c, steps, j, r, row, owner)
  }

  ghost predicate Vetted(c: Config, steps: seq<Step>, r: RequestId, row: Envelope, owner: InstanceId) {
    exists j: nat, k: nat :: j < k && LooksUp(c, steps, j, r, row, owner) && FindsAlive(c, steps, k, r, row, owner)
  }

  // ----- Longer runs -----

  lemma AtPrefix(c: Config, steps: seq<Step>, step: Step, k: nat)
    requires k <= |steps|
    ensures At(c, steps + [step], k) == At(c, steps, k)
  {
    assert (steps + [step])[..k] == steps[..k];
  }

  lemma AtEnd(c: Config, steps: seq<Step>, step: Step)
    ensures At(c, steps + [step], |steps|) == Exec(c, INIT, steps)
  {
    assert (steps + [step])[..|steps|] == steps;
  }

  lemma LooksUpStays(c: Config, steps: seq<Step>, step: Step, j: nat, r: RequestId, row: Envelope, owner: InstanceId)
    requires j < |steps|
    ensures LooksUp(c, steps + [step], j, r, row, owner) <==> LooksUp(c, steps, j, r, row, owner)
  {
    AtPrefix(c, steps, step, j);
    assert (steps + [step])[j] == steps[j];
    hide At, Lookup, D.HasNote, D.Unpublished;
  }

  lemma FindsAliveStays(c: Config, steps: seq<Step>, step: Step, k: nat, r: RequestId, row: Envelope, owner: InstanceId)
    requires k < |steps|
    ensures FindsAlive(c, steps + [step], k, r, row, owner) <==> FindsAlive(c, steps, k, r, row, owner)
  {
    AtPrefix(c, steps, step, k);
    assert (steps + [step])[k] == steps[k];
    hide At, IsAlive;
  }

  lemma NamedStays(c: Config, steps: seq<Step>, step: Step, r: RequestId, row: Envelope, owner: InstanceId)
    ensures Named(c, steps, r, row, owner) ==> Named(c, steps + [step], r, row, owner)
  {
    if !Named(c, steps, r, row, owner) { return; }
    var j: nat :| LooksUp(c, steps, j, r, row, owner);
    assert j < |steps|;
    LooksUpStays(c, steps, step, j, r, row, owner);
    hide LooksUp;
  }

  lemma VettedStays(c: Config, steps: seq<Step>, step: Step, r: RequestId, row: Envelope, owner: InstanceId)
    ensures Vetted(c, steps, r, row, owner) ==> Vetted(c, steps + [step], r, row, owner)
  {
    if !Vetted(c, steps, r, row, owner) { return; }
    var j: nat, k: nat :| j < k && LooksUp(c, steps, j, r, row, owner) && FindsAlive(c, steps, k, r, row, owner);
    assert k < |steps|;
    LooksUpStays(c, steps, step, j, r, row, owner);
    FindsAliveStays(c, steps, step, k, r, row, owner);
    hide LooksUp, FindsAlive;
  }

  /** The check request `r` is about to make for `row` finds `owner` alive. */
  ghost predicate Passes(s: State, r: RequestId, row: Envelope, owner: InstanceId) {
    RequestLive(s, r) && s.requests[r].pc == Probing(row, owner) && IsAlive(s.redis, owner)
  }

  /** The lookup request `r` is about to make for `row` answers `owner`. */
  ghost predicate Answers(s: State, r: RequestId, row: Envelope, owner: InstanceId) {
    RequestLive(s, r) && s.requests[r].pc == Looking(row) && Lookup(s.redis, s.requests[r].body.user) == Some(owner)
  }

  /** A check that passes now vets the owner its request's lookup named. */
  lemma VettedNow(c: Config, steps: seq<Step>, s: State, stamp: Time, r: RequestId, row: Envelope, owner: InstanceId)
    ensures s == Exec(c, INIT, steps) && Passes(s, r, row, owner) && Named(c, steps, r, row, owner) ==>
              Vetted(c, steps + [Advance(r, stamp)], r, row, owner)
  {
    if s != Exec(c, INIT, steps) || !Passes(s, r, row, owner) || !Named(c, steps, r, row, owner) { return; }
    var all := steps + [Advance(r, stamp)];
    AtEnd(c, steps, Advance(r, stamp));
    assert FindsAlive(c, all, |steps|, r, row, owner);
    var j: nat :| LooksUp(c, steps, j, r, row, owner);
    assert j < |steps|;
    LooksUpStays(c, steps, Advance(r, stamp), j, r, row, owner);
    hide LooksUp, FindsAlive;
  }

  lemma NamedNow(c: Config, steps: seq<Step>, s: State, stamp: Time, r: RequestId, row: Envelope, owner: InstanceId)
    ensures s == Exec(c, INIT, steps) && D.Inv(s) && Answers(s, r, row, owner) ==>
              Named(c, steps + [Advance(r, stamp)], r, row, owner)
  {
    if s != Exec(c, INIT, steps) || !D.Inv(s) || !Answers(s, r, row, owner) { return; }
    AtEnd(c, steps, Advance(r, stamp));
    assert D.RequestOk(s.db.rows, s.redis.channels.published, s.requests[r]);
    hide D.Inv, Exec;
    assert LooksUp(c, steps + [Advance(r, stamp)], |steps|, r, row, owner);
  }

  // ----- Every publish is vetted -----

  ghost predicate RequestVetted(c: Config, steps: seq<Step>, r: RequestId, q: Request) {
    match q.pc
    case Probing(row, owner) => Named(c, steps, r, row, owner)
    case Publishing(row, owner) => Vetted(c, steps, r, row, owner)
    case _ => true
  }

  /** The request that inserted the message's row was vetted for the instance the message went to. */
  ghost predicate PublishVetted(c: Config, steps: seq<Step>, requests: map<RequestId, Request>, p: Packet) {
    exists r ::
      r in requests && requests[r].won && requests[r].body.nid == p.note.nid && Vetted(c, steps, r, p.note, p.inst)
  }

  ghost predicate AllVetted(c: Config, steps: seq<Step>, s: State) {
    && (forall r :: r in s.requests ==> RequestVetted(c, steps, r, s.requests[r]))
    && (forall k | 0 <= k < |s.redis.channels.published| ::
          PublishVetted(c, steps, s.requests, s.redis.channels.published[k]))
  }

  /** Requests go on, keep their ids, and what was inserted stays theirs. */
  ghost predicate GoOn(before: map<RequestId, Request>, after: map<RequestId, Request>) {
    forall r :: r in before ==> r in after && after[r].body == before[r].body && (before[r].won ==> after[r].won)
  }

  lemma PublishVettedStays(
    c: Config, steps: seq<Step>, step: Step, before: map<RequestId, Request>, after: map<RequestId, Request>, p: Packet)
    requires GoOn(before, after)
    ensures PublishVetted(c, steps, before, p) ==> PublishVetted(c, steps + [step], after, p)
  {
    if !PublishVetted(c, steps, before, p) { return; }
    var r :| r in before && before[r].won && before[r].body.nid == p.note.nid && Vetted(c, steps, r, p.note, p.inst);
    VettedStays(c, steps, step, r, p.note, p.inst);
    hide Vetted;
  }

  /** How a request's step can name an owner: the lookup's answer, or the same owner found alive. */
  lemma OwnerMoves(c: Config, s: State, r: RequestId, stamp: Time)
    requires r in s.requests
    ensures var q, t := s.requests[r], Advanced(c, s, r, stamp);
      && r in t.requests && t.requests == s.requests[r := t.requests[r]] && t.requests[r].body == q.body
      && (!q.pc.Inserting? ==> t.requests[r].won == q.won)
      && (t.requests[r].pc.Probing? ==>
            q.pc == Looking(t.requests[r].pc.row1) && Lookup(s.redis, q.body.user) == Some(t.requests[r].pc.owner1))
      && (t.requests[r].pc.Publishing? ==>
            q.pc == Probing(t.requests[r].pc.row2, t.requests[r].pc.owner2) && IsAlive(s.redis, q.pc.owner1))
  {
    PostMoves(c, s.redis, s.db, s.requests[r], stamp);
    hide PostStep, Lookup, IsAlive;
  }

  lemma PostMoves(c: Config, redis: RedisState, db: Database, q: Request, stamp: Time)
    ensures var q' := PostStep(c, redis, db, q, stamp).2;
      && q'.body == q.body && (!q.pc.Inserting? ==> q'.won == q.won)
      && (q'.pc.Probing? ==> q.pc == Looking(q'.pc.row1) && Lookup(redis, q.body.user) == Some(q'.pc.owner1))
      && (q'.pc.Publishing? ==> q.pc == Probing(q'.pc.row2, q'.pc.owner2) && IsAlive(redis, q.pc.owner1))
  {
    hide Insert, MarkLive, Publish, Lookup, IsAlive;
    match q.pc
    case Rating =>
    case Checking =>
    case Inserting =>
    case Marking(_) =>
    case Looking(_) =>
    case Probing(_, _) =>
    case Publishing(_, _) =>
    case Flagging(_, _) =>
    case Replied(_) =>
    case Failed =>
  }

  ghost predicate AddsOne(before: seq<Packet>, after: seq<Packet>, row: Envelope, owner: InstanceId) {
    |after| == |before| + 1 && after[..|before|] == before && after[|before|].note == row
      && after[|before|].inst == owner
  }

  lemma PublishMoves(c: Config, s: State, r: RequestId, stamp: Time)
    requires r in s.requests
    ensures var q, before, after :=
        s.requests[r], s.redis.channels.published, Advanced(c, s, r, stamp).redis.channels.published;
      if q.pc.Publishing? then AddsOne(before, after, q.pc.row2, q.pc.owner2) else after == before
  {
    PostPublishes(c, s.redis, s.db, s.requests[r], stamp);
    hide PostStep;
  }

  lemma PostPublishes(c: Config, redis: RedisState, db: Database, q: Request, stamp: Time)
    ensures var before, after := redis.channels.published, PostStep(c, redis, db, q, stamp).0.channels.published;
      if q.pc.Publishing? then AddsOne(before, after, q.pc.row2, q.pc.owner2) else after == before
  {
    hide Insert, MarkLive, Lookup, IsAlive;
    match q.pc
    case Rating =>
    case Checking =>
    case Inserting =>
    case Marking(_) =>
    case Looking(_) =>
    case Probing(_, _) =>
    case Publishing(_, _) =>
    case Flagging(_, _) =>
    case Replied(_) =>
    case Failed =>
  }

  lemma AdvanceGoes(c: Config, s: State, r: RequestId, stamp: Time)
    requires r in s.requests && D.Inv(s)
    ensures GoOn(s.requests, Advanced(c, s, r, stamp).requests)
  {
    OwnerMoves(c, s, r, stamp);
    assert D.RequestOk(s.db.rows, s.redis.channels.published, s.requests[r]);
    hide Advanced, D.Inv;
  }

  lemma NewPublishVetted(c: Config, steps: seq<Step>, s: State, r: RequestId, stamp: Time)
    requires r in s.requests && D.Inv(s) && RequestVetted(c, steps, r, s.requests[r]) && s.requests[r].pc.Publishing?
    ensures var t := Advanced(c, s, r, stamp);
      forall p: Packet :: p.note == s.requests[r].pc.row2 && p.inst == s.requests[r].pc.owner2 ==>
        PublishVetted(c, steps + [Advance(r, stamp)], t.requests, p)
  {
    var q := s.requests[r];
    OwnerMoves(c, s, r, stamp);
    assert D.RequestOk(s.db.rows, s.redis.channels.published, q);
    VettedStays(c, steps, Advance(r, stamp), r, q.pc.row2, q.pc.owner2);
    hide Advanced, Vetted, D.Inv;
  }

  lemma AdvancePublishes(c: Config, steps: seq<Step>, s: State, r: RequestId, stamp: Time, k: nat)
    requires r in s.requests && AllVetted(c, steps, s) && D.Inv(s)
    requires k < |Advanced(c, s, r, stamp).redis.channels.published|
    ensures var t := Advanced(c, s, r, stamp);
      PublishVetted(c, steps + [Advance(r, stamp)], t.requests, t.redis.channels.published[k])
  {
    var q := s.requests[r];
    var before := s.redis.channels.published;
    PublishMoves(c, s, r, stamp);
    assert RequestVetted(c, steps, r, q);
    if k < |before| {
      AdvanceGoes(c, s, r, stamp);
      assert PublishVetted(c, steps, s.requests, before[k]);
      SamePublish(before, Advanced(c, s, r, stamp).redis.channels.published, q, k);
      hide Advanced, PublishVetted, GoOn, RequestVetted, D.Inv, AllVetted, AddsOne;
      PublishVettedStays(c, steps, Advance(r, stamp), s.requests, Advanced(c, s, r, stamp).requests, before[k]);
    } else {
      hide Advanced, PublishVetted, RequestVetted, D.Inv, AllVetted;
      NewPublishVetted(c, steps, s, r, stamp);
    }
  }

  lemma SamePublish(before: seq<Packet>, after: seq<Packet>, q: Request, k: nat)
    requires if q.pc.Publishing? then AddsOne(before, after, q.pc.row2, q.pc.owner2) else after == before
    requires k < |before|
    ensures k < |after| && after[k] == before[k]
  {
    if q.pc.Publishing? { assert after[..|before|][k] == after[k]; }
  }

  lemma AdvanceNames(c: Config, steps: seq<Step>, s: State, r: RequestId, stamp: Time)
    requires r in s.requests
    ensures s == Exec(c, INIT, steps) && D.Inv(s) && RequestLive(s, r) && RequestVetted(c, steps, r, s.requests[r]) ==>
      var t := Advanced(c, s, r, stamp);
      r in t.requests && RequestVetted(c, steps + [Advance(r, stamp)], r, t.requests[r])
  {
    OwnerMoves(c, s, r, stamp);
    var q' := Advanced(c, s, r, stamp).requests[r];
    hide Named, Vetted, Exec, Advanced, D.Inv;
    if q'.pc.Probing? {
      NamedNow(c, steps, s, stamp, r, q'.pc.row1, q'.pc.owner1);
    } else if q'.pc.Publishing? {
      VettedNow(c, steps, s, stamp, r, q'.pc.row2, q'.pc.owner2);
    }
  }

  lemma AdvanceVetted(c: Config, steps: seq<Step>, s: State, r: RequestId, stamp: Time)
    requires s == Exec(c, INIT, steps) && RequestLive(s, r) && AllVetted(c, steps, s) && D.Inv(s)
    ensures AllVetted(c, steps + [Advance(r, stamp)], Advanced(c, s, r, stamp))
  {
    var step, t := Advance(r, stamp), Advanced(c, s, r, stamp);
    OwnerMoves(c, s, r, stamp);
    AdvanceNames(c, steps, s, r, stamp);
    hide Exec, Advanced, D.Inv, PublishVetted, RequestVetted;
    forall k | 0 <= k < |t.redis.channels.published|
      ensures PublishVetted(c, steps + [step], t.requests, t.redis.channels.published[k])
    {
      AdvancePublishes(c, steps, s, r, stamp, k);
    }
    forall r' | r' in t.requests ensures RequestVetted(c, steps + [step], r', t.requests[r']) {
      if r' != r { RequestVettedStays(c, steps, step, r', s.requests[r']); }
    }
  }

  lemma RequestVettedStays(c: Config, steps: seq<Step>, step: Step, r: RequestId, q: Request)
    ensures RequestVetted(c, steps, r, q) ==> RequestVetted(c, steps + [step], r, q)
  {
    match q.pc
    case Probing(row, owner) => NamedStays(c, steps, step, r, row, owner); hide Named;
    case Publishing(row, owner) => VettedStays(c, steps, step, r, row, owner); hide Vetted;
    case _ =>
  }

  /** A step that publishes nothing and moves requests at most to failure or into being. */
  lemma QuietVetted(c: Config, steps: seq<Step>, s: State, step: Step, t: State)
    requires AllVetted(c, steps, s) && t.redis.channels.published == s.redis.channels.published
    requires GoOn(s.requests, t.requests)
    requires forall r ::
      r in t.requests && t.requests[r].pc.Probing? ==> r in s.requests && t.requests[r] == s.requests[r]
    requires forall r ::
      r in t.requests && t.requests[r].pc.Publishing? ==> r in s.requests && t.requests[r] == s.requests[r]
    ensures AllVetted(c, steps + [step], t)
  {
    hide Named, Vetted, PublishVetted, GoOn;
    forall r | r in t.requests ensures RequestVetted(c, steps + [step], r, t.requests[r]) {
      if r in s.requests && t.requests[r] == s.requests[r] { RequestVettedStays(c, steps, step, r, s.requests[r]); }
    }
    forall k | 0 <= k < |t.redis.channels.published|
      ensures PublishVetted(c, steps + [step], t.requests, t.redis.channels.published[k])
    {
      PublishVettedStays(c, steps, step, s.requests, t.requests, t.redis.channels.published[k]);
    }
  }

  /** What a step that is no request's command does to requests and publishes. */
  lemma RestQuiet(c: Config, s: State, step: Step)
    requires !step.Advance?
    ensures var t := Apply(c, s, step);
      && t.redis.channels.published == s.redis.channels.published && GoOn(s.requests, t.requests)
      && (forall r :: r in t.requests ==>
            (r in s.requests && t.requests[r] == s.requests[r]) || t.requests[r].pc.Rating? || t.requests[r].pc.Failed?)
  {
    if step.Post? || step.FailRequest? { return; }
    assert GoOn(s.requests, s.requests);
    if step.Act? {
      ApplyAct(c, s, step.x, step.input);
      hide Apply, GoOn, OnlyReads;
      if SessionLive(s, step.x) { ActFrame(c, s, step.x, step.input); }
      hide Acted, SessionLive;
    } else {
      RestFrame(c, s, step);
      hide Apply, GoOn, OfWire, OfInstance;
    }
  }

  lemma StepVetted(c: Config, steps: seq<Step>, s: State, step: Step)
    requires s == Exec(c, INIT, steps) && AllVetted(c, steps, s) && D.Inv(s)
    ensures AllVetted(c, steps + [step], Apply(c, s, step))
  {
    if step.Advance? {
      if RequestLive(s, step.r) {
        AdvanceVetted(c, steps, s, step.r, step.stamp);
      } else {
        QuietVetted(c, steps, s, step, s);
      }
      hide Exec, Advanced, AllVetted;
    } else {
      RestQuiet(c, s, step);
      hide Exec, Apply, AllVetted, GoOn;
      QuietVetted(c, steps, s, step, Apply(c, s, step));
    }
  }

  /** Every message ever published went to an instance that the registry named at the lookup of the request that
      inserted the row, after the commit and before any publish, and that the same request's check then found alive. */
  lemma {:induction false} PublishesAreVetted(c: Config, steps: seq<Step>)
    ensures AllVetted(c, steps, Exec(c, INIT, steps))
  {
    if steps == [] { return; }
    var before, step := steps[..|steps| - 1], steps[|steps| - 1];
    PublishesAreVetted(c, before);
    D.Always(c, before);
    assert steps == before + [step];
    var s := Exec(c, INIT, before);
    assert Exec(c, INIT, steps) == Apply(c, s, step);
    hide Exec, AllVetted, D.Inv;
    StepVetted(c, before, s, step);
  }

  /** A row is flagged delivered_live only after its message was published to an instance that the lookup of the
      inserting request named and that the same request's check found alive. */
  lemma LiveRowsWereVetted(c: Config, steps: seq<Step>, s: State, k: nat)
    requires s == Exec(c, INIT, steps) && k < |s.db.rows| && s.db.rows[k].live
    ensures exists j ::
      && 0 <= j < |s.redis.channels.published| && s.redis.channels.published[j].note == s.db.rows[k].note
      && PublishVetted(c, steps, s.requests, s.redis.channels.published[j])
  {
    PublishesAreVetted(c, steps);
    D.Always(c, steps);
    hide Exec, PublishVetted, RequestVetted;
    assert D.PublishedSomewhere(s.redis.channels.published, s.db.rows[k].note);
  }
}
