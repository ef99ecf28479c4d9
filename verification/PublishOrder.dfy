/** Frames of one subscription come in the order in which their messages were published to it. */
module PublishOrder {
  import opened Model
  import opened RedisServer
  import opened Repository
  import opened Protocol
  import opened Frames
  import opened Processes
  import D = Delivery
  import F = Fanout
  import I = Isolation
  import O = Ordering

  /** A message as the order sees it: the subscription it goes through, and its notification. */
  datatype Tag = Tag(inst: InstanceId, epoch: nat, nid: NotificationId)

  ghost predicate SamePlace(a: Tag, b: Tag) {
    a.inst == b.inst && a.epoch == b.epoch
  }

  ghost predicate Before(published: seq<Packet>, a: NotificationId, b: NotificationId) {
    exists i, j :: 0 <= i < j < |published| && published[i].note.nid == a && published[j].note.nid == b
  }

  ghost predicate Prec(published: seq<Packet>, a: Tag, b: Tag) {
    SamePlace(a, b) ==> Before(published, a.nid, b.nid)
  }

  ghost predicate InOrder(published: seq<Packet>, xs: seq<Tag>) {
    forall i, j | 0 <= i < j < |xs| :: Prec(published, xs[i], xs[j])
  }

  ghost predicate Across(published: seq<Packet>, xs: seq<Tag>, ys: seq<Tag>) {
    forall i, j | 0 <= i < |xs| && 0 <= j < |ys| :: Prec(published, xs[i], ys[j])
  }

  ghost predicate Apart(xs: seq<Tag>) {
    forall i, j | 0 <= i < j < |xs| :: !SamePlace(xs[i], xs[j])
  }

  ghost predicate Published(published: seq<Packet>, n: NotificationId) {
    exists i :: 0 <= i < |published| && published[i].note.nid == n
  }

  ghost predicate AllPublished(published: seq<Packet>, xs: seq<Tag>) {
    forall i | 0 <= i < |xs| :: Published(published, xs[i].nid)
  }

  /** What was shown, what is being written and what waits: along each subscription in the order of publishing, and at
      most one message of each is being written. */
  ghost predicate Line(published: seq<Packet>, shown: seq<Tag>, written: seq<Tag>, waiting: seq<Tag>) {
    && InOrder(published, shown) && Across(published, shown, written) && Across(published, shown, waiting)
    && Apart(written) && Across(published, written, waiting) && InOrder(published, waiting)
    && AllPublished(published, shown) && AllPublished(published, written) && AllPublished(published, waiting)
  }

  // ----- How a line moves -----

  lemma BeforeStays(published: seq<Packet>, p: Packet, a: NotificationId, b: NotificationId)
    requires Before(published, a, b)
    ensures Before(published + [p], a, b)
  {
    var i, j :| 0 <= i < j < |published| && published[i].note.nid == a && published[j].note.nid == b;
    var more := published + [p];
    assert more[i].note.nid == a && more[j].note.nid == b;
  }

  lemma PublishedStays(published: seq<Packet>, p: Packet, n: NotificationId)
    requires Published(published, n)
    ensures Published(published + [p], n) && Before(published + [p], n, p.note.nid)
  {
    var i :| 0 <= i < |published| && published[i].note.nid == n;
    var more := published + [p];
    assert more[i].note.nid == n && more[|published|].note.nid == p.note.nid;
  }

  /** One message more was published, and nothing else moved. */
  lemma LineStays(published: seq<Packet>, p: Packet, shown: seq<Tag>, written: seq<Tag>, waiting: seq<Tag>)
    requires Line(published, shown, written, waiting)
    ensures Line(published + [p], shown, written, waiting)
  {
    hide Before, Published;
    forall a, b ensures Prec(published, a, b) ==> Prec(published + [p], a, b) {
      if Before(published, a.nid, b.nid) { BeforeStays(published, p, a.nid, b.nid); }
    }
    forall n ensures Published(published, n) ==> Published(published + [p], n) {
      if Published(published, n) { PublishedStays(published, p, n); }
    }
    hide Prec;
  }

  /** It waits at the end. */
  lemma LineGrows(
    published: seq<Packet>, p: Packet, shown: seq<Tag>, written: seq<Tag>, waiting: seq<Tag>, tag: Tag)
    requires Line(published, shown, written, waiting) && tag.nid == p.note.nid
    ensures Line(published + [p], shown, written, waiting + [tag])
  {
    LineStays(published, p, shown, written, waiting);
    LastPublished(published, p);
    hide Before, Published;
    forall n ensures Published(published, n) ==> Before(published + [p], n, tag.nid) {
      if Published(published, n) { PublishedStays(published, p, n); }
    }
    forall a: Tag ensures Published(published, a.nid) ==> Prec(published + [p], a, tag) {}
    hide Prec;
  }

  lemma LastPublished(published: seq<Packet>, p: Packet)
    ensures Published(published + [p], p.note.nid)
  {
    assert (published + [p])[|published|] == p;
  }

  /** The oldest waiting message of a subscription that has none being written is picked up. */
  lemma LinePicks(published: seq<Packet>, shown: seq<Tag>, written: seq<Tag>, waiting: seq<Tag>, k: nat)
    requires Line(published, shown, written, waiting) && k < |waiting|
    requires forall j | 0 <= j < k :: !SamePlace(waiting[j], waiting[k])
    requires forall j | 0 <= j < |written| :: !SamePlace(written[j], waiting[k])
    ensures Line(published, shown, written + [waiting[k]], Without(waiting, k))
  {
    LineDrops(published, shown, written, waiting, k);
    hide Before, Published;
    var rest := Without(waiting, k);
    forall j | 0 <= j < |rest| ensures Prec(published, waiting[k], rest[j]) {
      if j < k {
        assert !SamePlace(waiting[j], waiting[k]);
      } else {
        assert rest[j] == waiting[j + 1];
      }
    }
    hide Prec, Without;
    forall i | 0 <= i < |shown| ensures Prec(published, shown[i], waiting[k]) {}
  }

  lemma LineDrops(published: seq<Packet>, shown: seq<Tag>, written: seq<Tag>, waiting: seq<Tag>, k: nat)
    requires Line(published, shown, written, waiting) && k < |waiting|
    ensures Line(published, shown, written, Without(waiting, k))
  {
    hide Prec, Published;
  }

  lemma LineLoses(published: seq<Packet>, shown: seq<Tag>, written: seq<Tag>, waiting: seq<Tag>, k: nat)
    requires Line(published, shown, written, waiting) && k < |written|
    ensures Line(published, shown, Without(written, k), waiting)
  {
    hide Prec, Published;
  }

  /** What is being written is shown. */
  lemma LineShows(published: seq<Packet>, shown: seq<Tag>, written: seq<Tag>, waiting: seq<Tag>, k: nat)
    requires Line(published, shown, written, waiting) && k < |written|
    ensures Line(published, shown + [written[k]], Without(written, k), waiting)
  {
    LineLoses(published, shown, written, waiting, k);
    var rest := Without(written, k);
    hide Before, Published;
    forall j | 0 <= j < |rest| ensures Prec(published, written[k], rest[j]) {
      assert rest[j] == written[if j < k then j else j + 1];
    }
    hide Prec, Without;
  }

  // ----- The line of a state -----

  ghost function TagOf(p: Packet): Tag {
    Tag(p.inst, p.epoch, p.note.nid)
  }

  ghost function Waiting(wire: seq<Packet>): seq<Tag> {
    seq(|wire|, k requires 0 <= k < |wire| => TagOf(wire[k]))
  }

  ghost function Writing(sending: seq<Delivery>): seq<Tag> {
    seq(|sending|, k requires 0 <= k < |sending| => TagOf(sending[k].packet))
  }

  /** A frame counts where its session's process is. */
  ghost function ShownTag(f: Frame, sessions: map<SessionId, Session>): Tag {
    if f.x in sessions then Tag(sessions[f.x].inst, sessions[f.x].epoch, f.note.nid) else Tag("", 0, f.note.nid)
  }

  ghost function Showing(frames: seq<Frame>, sessions: map<SessionId, Session>): seq<Tag> {
    seq(|frames|, k requires 0 <= k < |frames| => ShownTag(frames[k], sessions))
  }

  ghost predicate Inv(s: State) {
    Line(s.redis.channels.published, Showing(s.frames, s.sessions), Writing(s.sending), Waiting(s.redis.channels.wire))
  }

  ghost predicate SameLine(s: State, t: State) {
    && t.redis.channels.published == s.redis.channels.published && t.redis.channels.wire == s.redis.channels.wire
    && t.sending == s.sending && t.frames == s.frames
  }

  lemma SameKeeps(s: State, t: State)
    requires Inv(s) && O.Inv(s) && SameLine(s, t) && SamePlaces(s.sessions, t.sessions)
    ensures Inv(t)
  {
    hide Line, O.Handed;
    assert Showing(t.frames, t.sessions) == Showing(s.frames, s.sessions);
  }

  lemma PublishKeeps(s: State, i: InstanceId, note: Envelope, t: State)
    requires Inv(s) && t.redis.channels == Publish(s.redis.channels, i, note.user, note)
    requires t.sessions == s.sessions && t.sending == s.sending && t.frames == s.frames
    ensures Inv(t)
  {
    var ch := s.redis.channels;
    var shown, written, waiting := Showing(s.frames, s.sessions), Writing(s.sending), Waiting(ch.wire);
    hide Line;
    if i in ch.subscribers {
      var p := Packet(i, ch.subscribers[i], note.user, note);
      LineGrows(ch.published, p, shown, written, waiting, TagOf(p));
      assert Waiting(ch.wire + [p]) == waiting + [TagOf(p)];
    } else {
      LineStays(ch.published, Packet(i, 0, note.user, note), shown, written, waiting);
    }
  }

  lemma AdvanceKeeps(c: Config, s: State, r: RequestId, stamp: Time)
    requires Inv(s) && O.Inv(s) && D.Inv(s) && r in s.requests
    ensures Inv(Advanced(c, s, r, stamp))
  {
    var q, t := s.requests[r], Advanced(c, s, r, stamp);
    AdvanceFrame(c, s, r, stamp);
    F.AdvanceChannels(c, s, r, stamp);
    assert D.RequestOk(s.db.rows, s.redis.channels.published, q);
    if q.pc.Publishing? {
      assert q.pc.row2.user == q.body.user;
      hide Advanced, Inv, O.Inv, D.Inv, D.RequestOk;
      PublishKeeps(s, q.pc.owner2, q.pc.row2, t);
    } else {
      hide Advanced, Inv, O.Inv, D.Inv, D.RequestOk;
      SameKeeps(s, t);
    }
  }

  lemma WireTags(wire: seq<Packet>, k: nat)
    requires k < |wire|
    ensures Waiting(Without(wire, k)) == Without(Waiting(wire), k)
  {}

  lemma SendingTags(sending: seq<Delivery>, k: nat)
    requires k < |sending|
    ensures Writing(Without(sending, k)) == Without(Writing(sending), k)
  {}

  lemma OldestOfItsPlace(s: State, k: nat)
    requires CanPickUp(s, k)
    ensures var (waiting, written) := (Waiting(s.redis.channels.wire), Writing(s.sending));
      && (forall j | 0 <= j < k :: !SamePlace(waiting[j], waiting[k]))
      && (forall j | 0 <= j < |written| :: !SamePlace(written[j], waiting[k]))
  {}

  lemma PickUpKeeps(s: State, k: nat)
    requires Inv(s) && CanPickUp(s, k)
    ensures Inv(PickedUp(s, k))
  {
    var ch, t := s.redis.channels, PickedUp(s, k);
    var shown, written, waiting := Showing(s.frames, s.sessions), Writing(s.sending), Waiting(ch.wire);
    var p := ch.wire[k];
    WireTags(ch.wire, k);
    OldestOfItsPlace(s, k);
    hide Line, CanPickUp, SamePlace, Without;
    LineDrops(ch.published, shown, written, waiting, k);
    LinePicks(ch.published, shown, written, waiting, k);
    forall x ensures Writing(s.sending + [Delivery(p, x)]) == written + [waiting[k]] {}
  }

  lemma CompleteKeeps(s: State, k: nat, ok: bool)
    requires Inv(s) && O.Inv(s) && k < |s.sending| && Up(s, s.sending[k].packet.inst, s.sending[k].packet.epoch)
    ensures Inv(Completed(s, k, ok))
  {
    var ch, t, d := s.redis.channels, Completed(s, k, ok), s.sending[k];
    var shown, written, waiting := Showing(s.frames, s.sessions), Writing(s.sending), Waiting(ch.wire);
    SendingTags(s.sending, k);
    assert O.Bound(s.sessions, d.x, d.packet.inst, d.packet.epoch);
    assert ShownTag(Frame(d.x, d.packet.note), s.sessions) == written[k];
    hide O.Inv, Line, Without, ShownTag;
    LineLoses(ch.published, shown, written, waiting, k);
    LineShows(ch.published, shown, written, waiting, k);
    if ok { assert Showing(t.frames, t.sessions) == shown + [written[k]]; }
  }

  lemma LossKeeps(c: Config, s: State, step: Step)
    requires Inv(s) && (step.LoseWire? || step.LoseSending?)
    ensures Inv(Apply(c, s, step))
  {
    var ch := s.redis.channels;
    var shown, written, waiting := Showing(s.frames, s.sessions), Writing(s.sending), Waiting(ch.wire);
    hide Line, Without;
    match step
    case LoseWire(k) =>
      if k < |ch.wire| {
        WireTags(ch.wire, k);
        LineDrops(ch.published, shown, written, waiting, k);
      }
    case LoseSending(k) =>
      if k < |s.sending| {
        SendingTags(s.sending, k);
        LineLoses(ch.published, shown, written, waiting, k);
      }
  }

  lemma WireKeeps(c: Config, s: State, step: Step)
    requires Inv(s) && O.Inv(s) && OfWire(step)
    ensures Inv(Apply(c, s, step))
  {
    hide Inv, O.Inv;
    match step
    case PickUp(k) => if CanPickUp(s, k) { PickUpKeeps(s, k); } hide PickedUp, CanPickUp;
    case Complete(k, ok) =>
      if k < |s.sending| && Up(s, s.sending[k].packet.inst, s.sending[k].packet.epoch) { CompleteKeeps(s, k, ok); }
      hide Completed;
    case LoseWire(_) => LossKeeps(c, s, step); hide Apply;
    case LoseSending(_) => LossKeeps(c, s, step); hide Apply;
  }

  /** All other steps leave the line alone. */
  lemma RestLine(c: Config, s: State, step: Step)
    requires !OfWire(step) && !step.Advance?
    ensures SameLine(s, Apply(c, s, step))
  {
    if step.Act? {
      ApplyAct(c, s, step.x, step.input);
      hide Apply;
      if SessionLive(s, step.x) { ActFrame(c, s, step.x, step.input); }
      hide Acted;
    } else if OfInstance(step) {
      InstanceFrame(c, s, step);
      hide Apply;
    }
  }

  lemma StepKeeps(c: Config, s: State, step: Step)
    requires Inv(s) && O.Inv(s) && D.Inv(s)
    ensures Inv(Apply(c, s, step))
  {
    hide Inv, O.Inv, D.Inv;
    if step.Advance? {
      ApplyAdvance(c, s, step.r, step.stamp);
      hide Apply, Advanced;
      if RequestLive(s, step.r) { AdvanceKeeps(c, s, step.r, step.stamp); }
    } else if OfWire(step) {
      WireKeeps(c, s, step);
      hide Apply;
    } else {
      RestLine(c, s, step);
      StepPlaces(c, s, step);
      hide Apply;
      SameKeeps(s, Apply(c, s, step));
    }
  }

  lemma {:induction false} Always(c: Config, steps: seq<Step>)
    ensures Inv(Exec(c, INIT, steps))
  {
    if steps != [] {
      var before := steps[..|steps| - 1];
      Always(c, before);
      O.Always(c, before);
      D.Always(c, before);
      hide Inv, O.Inv, D.Inv, Apply;
      StepKeeps(c, Exec(c, INIT, before), steps[|steps| - 1]);
    }
  }

  /** In every run, whatever is lost, fails or comes in between: of two live frames on sockets of one process, on one
      socket in particular, the one shown first shows what was published first. */
  lemma FramesComeInPublishOrder(c: Config, s: State, f: nat, g: nat)
    requires Reachable(c, s) && f < g < |s.frames|
    ensures s.frames[f].x in s.sessions && s.frames[g].x in s.sessions
    ensures var (q, q', published) :=
      (s.sessions[s.frames[f].x], s.sessions[s.frames[g].x], s.redis.channels.published);
      q.inst == q'.inst && q.epoch == q'.epoch ==>
        exists i, j :: 0 <= i < j < |published|
          && published[i].note.nid == s.frames[f].note.nid && published[j].note.nid == s.frames[g].note.nid
  {
    var steps :| s == Exec(c, INIT, steps);
    Always(c, steps);
    I.FramesAreFaithfulAndIsolated(c, s, f);
    I.FramesAreFaithfulAndIsolated(c, s, g);
    hide Exec;
    var shown := Showing(s.frames, s.sessions);
    assert InOrder(s.redis.channels.published, shown);
    assert Prec(s.redis.channels.published, shown[f], shown[g]);
  }
}
