/** Why a connected user can be missing from a map: a send to the user failed there, in every run. */
module Drops {
  import opened Model
  import opened RedisServer
  import opened Repository
  import opened Protocol
  import opened Frames
  import opened Effects
  import R = Reachability
  import V = Vetting

  /** The step is a send to `u` by this process that fails. */
  ghost predicate FailsToSend(s: State, step: Step, i: InstanceId, epoch: nat, u: UserId) {
    && step.Complete? && !step.ok && step.k < |s.sending|
    && var p := s.sending[step.k].packet; p.inst == i && p.epoch == epoch && p.user == u && Up(s, i, epoch)
  }

  /** The step adds a socket of `u` to the map of instance `i`. */
  ghost predicate Adds(s: State, step: Step, i: InstanceId, u: UserId) {
    && step.Act? && SessionLive(s, step.x) && Goes(s.sessions[step.x], step.input)
    && s.sessions[step.x].pc.Adding? && s.sessions[step.x].who == Some(u) && s.sessions[step.x].inst == i
  }

  /** Step `j` of the run is such a failed send, and no socket of the user was added there since. */
  ghost predicate FailedAt(c: Config, steps: seq<Step>, j: nat, i: InstanceId, epoch: nat, u: UserId) {
    && j < |steps| && FailsToSend(At(c, steps, j), steps[j], i, epoch, u)
    && forall k: nat :: j < k < |steps| ==> !AddsAt(c, steps, k, i, u)
  }

  ghost predicate AddsAt(c: Config, steps: seq<Step>, k: nat, i: InstanceId, u: UserId)
    requires k < |steps|
  {
    Adds(At(c, steps, k), steps[k], i, u)
  }

  ghost predicate Failed(c: Config, steps: seq<Step>, i: InstanceId, epoch: nat, u: UserId) {
    exists j: nat :: FailedAt(c, steps, j, i, epoch, u)
  }

  ghost predicate Explained(c: Config, steps: seq<Step>, instances: map<InstanceId, Instance>) {
    forall i, u :: i in instances && u in instances[i].drops ==> Failed(c, steps, i, instances[i].epoch, u)
  }

  lemma FailedStays(c: Config, steps: seq<Step>, step: Step, i: InstanceId, epoch: nat, u: UserId)
    ensures Failed(c, steps, i, epoch, u) && !Adds(Exec(c, INIT, steps), step, i, u) ==>
              Failed(c, steps + [step], i, epoch, u)
  {
    var all := steps + [step];
    if Failed(c, steps, i, epoch, u) && !Adds(Exec(c, INIT, steps), step, i, u) {
      var j: nat :| FailedAt(c, steps, j, i, epoch, u);
      V.AtPrefix(c, steps, step, j);
      V.AtEnd(c, steps, step);
      forall k: nat | j < k < |all| ensures !AddsAt(c, all, k, i, u) {
        if k < |steps| {
          V.AtPrefix(c, steps, step, k);
          assert !AddsAt(c, steps, k, i, u);
        }
      }
      hide At, Exec, Adds, FailsToSend;
      assert FailedAt(c, all, j, i, epoch, u);
    }
  }

  lemma FailedNow(c: Config, steps: seq<Step>, step: Step, i: InstanceId, epoch: nat, u: UserId)
    ensures FailsToSend(Exec(c, INIT, steps), step, i, epoch, u) ==> Failed(c, steps + [step], i, epoch, u)
  {
    V.AtEnd(c, steps, step);
    hide At, Exec, Adds, FailsToSend;
    if FailsToSend(Exec(c, INIT, steps), step, i, epoch, u) {
      assert FailedAt(c, steps + [step], |steps|, i, epoch, u);
    }
  }

  /** How a user can come to be on the record: it was, and no socket was added, or a send fails now. */
  ghost predicate DropsMove(s: State, step: Step, t: State) {
    forall i, u :: i in t.instances && u in t.instances[i].drops ==>
      || (i in s.instances && s.instances[i].epoch == t.instances[i].epoch && u in s.instances[i].drops
          && !Adds(s, step, i, u))
      || FailsToSend(s, step, i, t.instances[i].epoch, u)
  }

  lemma ActDrops(c: Config, s: State, x: SessionId, input: Input)
    requires SessionLive(s, x)
    ensures DropsMove(s, Act(x, input), Acted(c, s, x, input))
  {
    R.ActSockets(c, s, x, input);
    ActCore(c, s, x, input);
    hide Acted;
  }

  lemma CompleteDrops(c: Config, s: State, k: nat, ok: bool)
    ensures DropsMove(s, Complete(k, ok), Apply(c, s, Complete(k, ok)))
  {
    hide Without;
  }

  lemma InstanceDrops(c: Config, s: State, step: Step)
    requires OfInstance(step)
    ensures DropsMove(s, step, Apply(c, s, step))
  {
    if step.Boot? || step.Crash? || step.KeepInstanceAlive? {
      LifeDrops(c, s, step);
    } else {
      ShutdownDrops(c, s, step);
    }
    hide Apply, DropsMove;
  }

  lemma LifeDrops(c: Config, s: State, step: Step)
    requires step.Boot? || step.Crash? || step.KeepInstanceAlive?
    ensures DropsMove(s, step, Apply(c, s, step))
  {
    match step
    case Boot(_) =>
    case Crash(_) =>
    case KeepInstanceAlive(_) =>
  }

  lemma ShutdownDrops(c: Config, s: State, step: Step)
    requires step.BeginShutdown? || step.TearDownEntry? || step.TearDownStatus?
    ensures DropsMove(s, step, Apply(c, s, step))
  {
    match step
    case BeginShutdown(_) =>
    case TearDownEntry(_, _) =>
    case TearDownStatus(_, _) =>
  }

  lemma StepDrops(c: Config, s: State, step: Step)
    ensures DropsMove(s, step, Apply(c, s, step))
  {
    match step
    case Act(x, input) =>
      ApplyAct(c, s, x, input);
      hide Apply;
      if SessionLive(s, x) { ActDrops(c, s, x, input); }
      hide Acted;
    case Advance(r, stamp) =>
      ApplyAdvance(c, s, r, stamp);
      hide Apply;
      if RequestLive(s, r) { AdvanceFrame(c, s, r, stamp); }
      hide Advanced;
    case Complete(k, ok) => CompleteDrops(c, s, k, ok); hide Apply;
    case PickUp(k) => if CanPickUp(s, k) { PickUpFrame(s, k); hide PickedUp, CanPickUp; }
    case _ => if OfInstance(step) { InstanceDrops(c, s, step); hide Apply; }
  }

  lemma StepKeeps(c: Config, steps: seq<Step>, step: Step)
    ensures var s := Exec(c, INIT, steps);
      Explained(c, steps, s.instances) ==> Explained(c, steps + [step], Apply(c, s, step).instances)
  {
    var s := Exec(c, INIT, steps);
    var t := Apply(c, s, step);
    if !Explained(c, steps, s.instances) { return; }
    StepDrops(c, s, step);
    hide Exec, Apply, Failed, Adds, FailsToSend;
    forall i, u | i in t.instances && u in t.instances[i].drops
      ensures Failed(c, steps + [step], i, t.instances[i].epoch, u)
    {
      FailedStays(c, steps, step, i, t.instances[i].epoch, u);
      FailedNow(c, steps, step, i, t.instances[i].epoch, u);
    }
  }

  lemma {:induction false} Always(c: Config, steps: seq<Step>)
    ensures Explained(c, steps, Exec(c, INIT, steps).instances)
  {
    if steps == [] { return; }
    var before, step := steps[..|steps| - 1], steps[|steps| - 1];
    Always(c, before);
    assert steps == before + [step];
    assert Exec(c, INIT, steps) == Apply(c, Exec(c, INIT, before), step);
    hide Exec, Apply, Explained;
    StepKeeps(c, before, step);
  }

  /** However late the refreshes come: the map of a running instance leads to the user's only session, or a send to the
      user failed on that process after the user's socket was last added there. */
  lemma SocketOrFailedSend(c: Config, steps: seq<Step>, s: State, x: SessionId, u: UserId)
    requires s == Exec(c, INIT, steps) && R.NoOverlapRun(c, steps, x, u)
    requires SessionLive(s, x) && s.sessions[x].who == Some(u) && Attached(s.sessions[x].pc)
    requires IsRunning(s, s.sessions[x].inst)
    ensures var q := s.sessions[x]; var conns := s.instances[q.inst].conns;
      (u in conns && conns[u] == x) || exists j: nat :: FailedAt(c, steps, j, q.inst, q.epoch, u)
  {
    Always(c, steps);
    assert R.ReachedAlone(c, s, x, u);
    R.SocketsLeadToSessions(c, s, x, u);
    hide Exec, FailedAt, R.NoOverlapRun;
    var q := s.sessions[x];
    if u in s.instances[q.inst].drops { assert Failed(c, steps, q.inst, s.instances[q.inst].epoch, u); }
  }
}
