/** Which process a session belongs to: it never moves, and a process that went down never comes back. An instance that
    is started again is a new process, with an epoch of its own, and sessions of the old one take no more steps. */
module Processes {
  import opened Model
  import opened RedisServer
  import opened Repository
  import opened Protocol
  import opened Frames
  import opened Effects
  import S = Snapshots
  import T = Tickets

  /** Sessions belong to a process that was started. */
  ghost predicate Placed(sessions: map<SessionId, Session>, instances: map<InstanceId, Instance>) {
    forall x ::
      x in sessions ==> sessions[x].inst in instances && sessions[x].epoch <= instances[sessions[x].inst].epoch
  }

  /** Started processes stay on record, only a restart changes the epoch, and only what was down is restarted. */
  ghost predicate Ages(before: map<InstanceId, Instance>, after: map<InstanceId, Instance>) {
    forall i :: i in before ==>
      && i in after && before[i].epoch <= after[i].epoch
      && (after[i].epoch == before[i].epoch ==>
            && (!after[i].phase.Down? ==> !before[i].phase.Down?)
            && (after[i].phase.Running? ==> before[i].phase.Running?))
  }

  ghost predicate SamePlaces(before: map<SessionId, Session>, after: map<SessionId, Session>) {
    forall x :: x in before ==> x in after && after[x].inst == before[x].inst && after[x].epoch == before[x].epoch
  }

  lemma StepPlace(c: Config, redis: RedisState, db: Database, conns: Conns, x: SessionId, q: Session, input: Input)
    ensures var q' := SessionStep(c, redis, db, conns, x, q, input).3; q'.inst == q.inst && q'.epoch == q.epoch
  {
    if !T.Redeems(q, input) {
      T.SessionStepIdentity(c, redis, db, conns, x, q, input);
      hide SessionStep;
    }
  }

  lemma ActAges(c: Config, s: State, x: SessionId, input: Input)
    requires SessionLive(s, x)
    ensures var t := Acted(c, s, x, input); Ages(s.instances, t.instances) && SamePlaces(s.sessions, t.sessions)
  {
    StepPlace(c, s.redis, s.db, s.instances[s.sessions[x].inst].conns, x, s.sessions[x], input);
    hide SessionStep;
  }

  lemma WireAges(c: Config, s: State, step: Step)
    requires OfWire(step)
    ensures Ages(s.instances, Apply(c, s, step).instances)
  {
    match step
    case PickUp(k) => if CanPickUp(s, k) { PickUpFrame(s, k); hide PickedUp, CanPickUp; }
    case Complete(k, ok) =>
    case LoseWire(_) =>
    case LoseSending(_) =>
  }

  lemma LifeAges(c: Config, s: State, step: Step)
    requires step.Boot? || step.Crash? || step.KeepInstanceAlive?
    ensures Ages(s.instances, Apply(c, s, step).instances)
  {
    match step
    case Boot(i) => if i in s.instances ==> s.instances[i].phase.Down? { BootAges(s, i); } hide Booted, Ages;
    case Crash(i) => if i in s.instances { CrashAges(s, i); } hide Crashed, Ages;
    case KeepInstanceAlive(_) =>
  }

  lemma CrashAges(s: State, i: InstanceId)
    requires i in s.instances
    ensures Ages(s.instances, Crashed(s, i).instances)
  {}

  lemma BootAges(s: State, i: InstanceId)
    requires i in s.instances ==> s.instances[i].phase.Down?
    ensures Ages(s.instances, Booted(s, i).instances)
  {}

  lemma ShutdownAges(c: Config, s: State, step: Step)
    requires step.BeginShutdown? || step.TearDownEntry? || step.TearDownStatus?
    ensures Ages(s.instances, Apply(c, s, step).instances)
  {
    var i := step.inst;
    if i !in s.instances || s.instances[i].phase.Down? { return; }
    if step.BeginShutdown? { BeginInstances(c, s, i); } else { TearDownInstances(c, s, step); }
    StoppingStays(c, s, step);
    hide Apply;
  }

  /** No shutdown step makes a stopping instance run. */
  lemma StoppingStays(c: Config, s: State, step: Step)
    requires step.BeginShutdown? || step.TearDownEntry? || step.TearDownStatus?
    requires step.inst in s.instances
    ensures var t := Apply(c, s, step);
      step.inst in t.instances && (t.instances[step.inst].phase.Running? ==> s.instances[step.inst].phase.Running?)
  {}

  lemma StepAges(c: Config, s: State, step: Step)
    ensures Ages(s.instances, Apply(c, s, step).instances)
  {
    match step
    case Advance(r, stamp) => if RequestLive(s, r) { AdvanceFrame(c, s, r, stamp); hide Advanced; }
    case Act(x, input) => if SessionLive(s, x) { ActAges(c, s, x, input); hide Acted; }
    case _ =>
      if OfWire(step) { WireAges(c, s, step); hide Apply; }
      else if step.Boot? || step.Crash? || step.KeepInstanceAlive? { LifeAges(c, s, step); hide Apply; }
      else if OfInstance(step) { ShutdownAges(c, s, step); hide Apply; }
  }

  lemma StepPlaces(c: Config, s: State, step: Step)
    ensures SamePlaces(s.sessions, Apply(c, s, step).sessions)
  {
    S.SessionsMove(c, s, step);
    if step.Act? && SessionLive(s, step.x) { ActAges(c, s, step.x, step.input); }
    hide Apply, Acted;
  }

  lemma StepKeeps(c: Config, s: State, step: Step)
    requires Placed(s.sessions, s.instances)
    ensures Placed(Apply(c, s, step).sessions, Apply(c, s, step).instances)
  {
    var t := Apply(c, s, step);
    StepAges(c, s, step);
    StepPlaces(c, s, step);
    NewPlaced(c, s, step);
    hide Apply;
    forall x | x in t.sessions
      ensures t.sessions[x].inst in t.instances && t.sessions[x].epoch <= t.instances[t.sessions[x].inst].epoch
    {
      if x in s.sessions { assert s.sessions[x].inst in s.instances; }
    }
  }

  lemma NewPlaced(c: Config, s: State, step: Step)
    ensures var t := Apply(c, s, step);
      forall x :: x in t.sessions && x !in s.sessions ==>
        t.sessions[x].inst in t.instances && t.sessions[x].epoch <= t.instances[t.sessions[x].inst].epoch
  {
    if !step.Connect? { OnlyConnectAdds(c, s, step); hide Apply; }
  }

  lemma OnlyConnectAdds(c: Config, s: State, step: Step)
    requires !step.Connect?
    ensures Apply(c, s, step).sessions.Keys == s.sessions.Keys
  {
    match step
    case Advance(r, stamp) => if RequestLive(s, r) { AdvanceFrame(c, s, r, stamp); hide Advanced; }
    case Act(x, input) => if SessionLive(s, x) { ActFrame(c, s, x, input); hide Acted; }
    case _ =>
      if OfWire(step) { WireFrame(c, s, step); hide Apply; }
      else if OfInstance(step) { InstanceFrame(c, s, step); hide Apply; }
  }

  lemma {:induction false} Always(c: Config, steps: seq<Step>)
    ensures Placed(Exec(c, INIT, steps).sessions, Exec(c, INIT, steps).instances)
  {
    if steps != [] {
      Always(c, steps[..|steps| - 1]);
      StepKeeps(c, Exec(c, INIT, steps[..|steps| - 1]), steps[|steps| - 1]);
    }
  }

  /** A session that is live after a step was live before it, on the same process, and that process was running if it
      is now. */
  lemma LiveBefore(c: Config, s: State, step: Step, x: SessionId)
    requires Placed(s.sessions, s.instances) && x in s.sessions
    ensures var t := Apply(c, s, step);
      && x in t.sessions && t.sessions[x].inst == s.sessions[x].inst && t.sessions[x].epoch == s.sessions[x].epoch
      && (SessionLive(t, x) ==>
            SessionLive(s, x) && (IsRunning(t, s.sessions[x].inst) ==> IsRunning(s, s.sessions[x].inst)))
  {
    StepAges(c, s, step);
    StepPlaces(c, s, step);
    hide Apply;
  }
}
