/** How sessions end, in every run: the cleanup follows a disconnect or an exception in the try block, whatever it
    was, and only an exception outside the try block can cut it short. */
module Cleanup {
  import opened Model
  import opened RedisServer
  import opened Repository
  import opened Protocol
  import opened Frames
  import opened Effects
  import C = Reachability
  import D = Delivery
  import S = Snapshots
  import T = Tickets
  import V = Vetting

  /** The session is inside the try block: from the backlog query on, and not yet in the cleanup. */
  ghost predicate InTry(pc: SessionPc) {
    || pc.Snapshotting? || pc.SendingBacklog? || pc.Serving? || pc.Beating? || pc.Refreshing? || pc.Updating?
    || pc.Receipting?
  }

  ghost predicate InCleanup(pc: SessionPc) {
    pc.Removing? || pc.Unregistering? || pc.GoingOffline?
  }

  ghost predicate Over(pc: SessionPc) {
    pc.Rejected? || pc.Ended? || pc.Aborted?
  }

  /** A disconnect in the message loop, or an exception anywhere in the try block. */
  ghost predicate LeavesTry(pc: SessionPc, input: Input) {
    (input.HangUp? && pc.Serving?) || (input.Break? && InTry(pc))
  }

  // ----- From any state -----

  lemma LeavingStep(c: Config, s: State, x: SessionId, input: Input, u: UserId)
    requires SessionLive(s, x) && s.sessions[x].who == Some(u) && LeavesTry(s.sessions[x].pc, input)
    ensures var t := Apply(c, s, Act(x, input));
      SessionLive(t, x) && t.sessions[x].who == Some(u) && t.sessions[x].pc.Removing?
  {}

  /** The cleanup commands, one by one: the socket, the registry entry, the status. */
  lemma CleanupStep(c: Config, s: State, x: SessionId, u: UserId)
    requires SessionLive(s, x) && s.sessions[x].who == Some(u) && InCleanup(s.sessions[x].pc)
    ensures var q, t := s.sessions[x], Apply(c, s, Act(x, Go));
      && SessionLive(t, x) && t.sessions[x].inst == q.inst && t.sessions[x].who == Some(u)
      && var (d, d', m, m') :=
         (s.redis.directory, t.redis.directory, s.instances[q.inst].conns, t.instances[q.inst].conns);
         match q.pc
         case Removing => t.sessions[x].pc.Unregistering? && m' == m - {u} && d' == d
         case Unregistering =>
           t.sessions[x].pc.GoingOffline? && m' == m && d' == d.(registry := d'.registry)
             && d'.registry == d.registry - {u}
         case _ => t.sessions[x].pc.Ended? && m' == m && d' == d.(status := d'.status) && d'.status == d.status - {u}
  {
    ApplyAct(c, s, x, Go);
    T.ActIdentity(c, s, x, Go);
    C.ActSockets(c, s, x, Go);
    CleanupDirectory(c, s, x, u);
    hide Apply, Acted;
  }

  lemma CleanupDirectory(c: Config, s: State, x: SessionId, u: UserId)
    requires SessionLive(s, x) && s.sessions[x].who == Some(u) && InCleanup(s.sessions[x].pc)
    ensures var q, t := s.sessions[x], Acted(c, s, x, Go); var (d, d') := (s.redis.directory, t.redis.directory);
      match q.pc
      case Removing => t.sessions[x].pc.Unregistering? && d' == d
      case Unregistering => t.sessions[x].pc.GoingOffline? && d' == d.(registry := d.registry - {u})
      case _ => t.sessions[x].pc.Ended? && d' == d.(status := d.status - {u})
  {}

  /** Whatever goes wrong inside the try block, and however the client leaves: the three cleanup commands, with
      nothing in between, end the session with no socket, no registry entry and no status of its user. */
  lemma LeavingIsCleanedUp(c: Config, s: State, x: SessionId, input: Input, u: UserId)
    requires SessionLive(s, x) && s.sessions[x].who == Some(u) && LeavesTry(s.sessions[x].pc, input)
    ensures var t := Exec(c, s, [Act(x, input), Act(x, Go), Act(x, Go), Act(x, Go)]);
      && SessionLive(t, x) && t.sessions[x].pc.Ended? && u !in t.instances[t.sessions[x].inst].conns
      && u !in t.redis.directory.registry && u !in t.redis.directory.status
  {
    var s1 := Apply(c, s, Act(x, input));
    var s2 := Apply(c, s1, Act(x, Go));
    var s3 := Apply(c, s2, Act(x, Go));
    FourSteps(c, s, Act(x, input), Act(x, Go));
    LeavingStep(c, s, x, input, u);
    hide Apply, Exec;
    CleanupStep(c, s1, x, u);
    CleanupStep(c, s2, x, u);
    CleanupStep(c, s3, x, u);
  }

  lemma FourSteps(c: Config, s: State, first: Step, next: Step)
    ensures Exec(c, s, [first, next, next, next]) == Apply(c, Apply(c, Apply(c, Apply(c, s, first), next), next), next)
  {
    hide Apply;
    assert [] + [first] == [first] && [first] + [next] == [first, next];
    assert [first, next] + [next] == [first, next, next] && [first, next, next] + [next] == [first, next, next, next];
    D.ExecSplit(c, s, [], first);
    D.ExecSplit(c, s, [first], next);
    D.ExecSplit(c, s, [first, next], next);
    D.ExecSplit(c, s, [first, next, next], next);
  }

  // ----- In every run -----

  /** Step `j` of the run takes session `x` out of the try block. */
  ghost predicate Leaves(c: Config, steps: seq<Step>, j: nat, x: SessionId) {
    j < |steps| && steps[j].Act? && steps[j].x == x &&
    var s := At(c, steps, j);
    SessionLive(s, x) && LeavesTry(s.sessions[x].pc, steps[j].input)
  }

  /** Step `j` of the run is a command of session `x`, which stands at `pc`. */
  ghost predicate Does(c: Config, steps: seq<Step>, j: nat, x: SessionId, pc: SessionPc) {
    j < |steps| && steps[j] == Act(x, Go) &&
    var s := At(c, steps, j);
    SessionLive(s, x) && s.sessions[x].pc == pc && s.sessions[x].who.Some?
  }

  /** Step `j` of the run is an exception in session `x`, which stands at `pc`. */
  ghost predicate Raises(c: Config, steps: seq<Step>, j: nat, x: SessionId, pc: SessionPc) {
    j < |steps| && steps[j] == Act(x, Break) &&
    var s := At(c, steps, j);
    SessionLive(s, x) && s.sessions[x].pc == pc
  }

  /** Before step `hi` session `x` left the try block and then ran these commands in this order. */
  ghost predicate Ran(c: Config, steps: seq<Step>, x: SessionId, commands: seq<SessionPc>, hi: nat)
    decreases |commands|
  {
    if commands == [] then exists j: nat :: j < hi && Leaves(c, steps, j, x)
    else
      var n := |commands| - 1;
      exists j: nat :: j < hi && Does(c, steps, j, x, commands[n]) && Ran(c, steps, x, commands[..n], j)
  }

  /** How a session that is being cleaned up or is gone got there. */
  ghost predicate Traced(c: Config, steps: seq<Step>, x: SessionId, q: Session) {
    match q.pc
    case Removing => Ran(c, steps, x, [], |steps|)
    case Unregistering => Ran(c, steps, x, [Removing], |steps|)
    case GoingOffline => Ran(c, steps, x, [Removing, Unregistering], |steps|)
    case Ended => Ran(c, steps, x, [Removing, Unregistering, GoingOffline], |steps|)
    case Aborted(registered) => AbortedAt(c, steps, x, registered, q.snapshot.Some?)
    case _ => true
  }

  /** An exception outside the try block ended the session where its entry was, or was not, there. A session that got as
      far as its query can only have been in the cleanup. */
  ghost predicate AbortedAt(c: Config, steps: seq<Step>, x: SessionId, registered: bool, queried: bool) {
    exists j: nat, pc :: Raises(c, steps, j, x, pc) && !InTry(pc) && (queried ==> InCleanup(pc))
      && (registered <==> pc.GoingOnline? || pc.Removing? || pc.Unregistering?)
  }

  ghost predicate AllTraced(c: Config, steps: seq<Step>, sessions: map<SessionId, Session>) {
    forall x :: x in sessions ==> Traced(c, steps, x, sessions[x])
  }

  lemma {:induction false} RanStays(
    c: Config, steps: seq<Step>, step: Step, x: SessionId, commands: seq<SessionPc>, hi: nat, more: nat)
    requires hi <= |steps| && hi <= more
    ensures Ran(c, steps, x, commands, hi) ==> Ran(c, steps + [step], x, commands, more)
    decreases |commands|
  {
    if !Ran(c, steps, x, commands, hi) { return; }
    var all := steps + [step];
    if commands == [] {
      var j: nat :| j < hi && Leaves(c, steps, j, x);
      V.AtPrefix(c, steps, step, j);
      assert Leaves(c, all, j, x);
    } else {
      var n := |commands| - 1;
      var j: nat :| j < hi && Does(c, steps, j, x, commands[n]) && Ran(c, steps, x, commands[..n], j);
      V.AtPrefix(c, steps, step, j);
      RanStays(c, steps, step, x, commands[..n], j, j);
      assert Does(c, all, j, x, commands[n]);
    }
    hide At;
  }

  lemma AbortedStays(c: Config, steps: seq<Step>, step: Step, x: SessionId, registered: bool, queried: bool)
    ensures AbortedAt(c, steps, x, registered, queried) ==> AbortedAt(c, steps + [step], x, registered, queried)
  {
    if !AbortedAt(c, steps, x, registered, queried) { return; }
    var j: nat, pc :| Raises(c, steps, j, x, pc) && !InTry(pc) && (queried ==> InCleanup(pc))
      && (registered <==> pc.GoingOnline? || pc.Removing? || pc.Unregistering?);
    V.AtPrefix(c, steps, step, j);
    hide At;
    assert Raises(c, steps + [step], j, x, pc);
  }

  lemma TracedStays(c: Config, steps: seq<Step>, step: Step, x: SessionId, q: Session)
    ensures Traced(c, steps, x, q) ==> Traced(c, steps + [step], x, q)
  {
    hide Ran, AbortedAt;
    match q.pc
    case Removing => RanStays(c, steps, step, x, [], |steps|, |steps| + 1);
    case Unregistering => RanStays(c, steps, step, x, [Removing], |steps|, |steps| + 1);
    case GoingOffline => RanStays(c, steps, step, x, [Removing, Unregistering], |steps|, |steps| + 1);
    case Ended => RanStays(c, steps, step, x, [Removing, Unregistering, GoingOffline], |steps|, |steps| + 1);
    case Aborted(registered) => AbortedStays(c, steps, step, x, registered, q.snapshot.Some?);
    case _ =>
  }

  /** Where each stage of the end of a session comes from. */
  ghost predicate Comes(q: Session, input: Input, q': Session) {
    match q'.pc
    case Removing => LeavesTry(q.pc, input)
    case Unregistering => Goes(q, input) && q.pc.Removing?
    case GoingOffline => Goes(q, input) && q.pc.Unregistering?
    case Ended => Goes(q, input) && q.pc.GoingOffline?
    case Aborted(registered) =>
      && input.Break? && !InTry(q.pc) && !Over(q.pc) && q'.snapshot == q.snapshot
      && (registered <==> q.pc.GoingOnline? || q.pc.Removing? || q.pc.Unregistering?)
    case _ => true
  }

  ghost predicate Same(q: Session, q': Session) {
    q'.pc == q.pc && q'.snapshot == q.snapshot
  }

  lemma EndMoves(c: Config, redis: RedisState, db: Database, x: SessionId, q: Session, input: Input, q': Session)
    requires Moves(c, redis, db, x, q, input, q')
    ensures Comes(q, input, q') || Same(q, q')
  {
    hide IsPage, UnreadOf;
    match input
    case Break =>
      PcCases(q.pc);
      assert Over(q.pc) ==> Same(q, q');
    case Go => PcCases(q.pc);
    case Page(_) =>
    case Receive(message) =>
      match message {
      case HeartbeatMessage =>
      case PresenceMessage(_) =>
      case ReceiptMessage(_) =>
      case OtherMessage =>
      }
    case HangUp =>
  }

  /** The run has come to `s`, where session `x` stands at `pc`. */
  ghost predicate Stands(c: Config, steps: seq<Step>, s: State, x: SessionId, pc: SessionPc) {
    s == Exec(c, INIT, steps) && SessionLive(s, x) && s.sessions[x].pc == pc
  }

  /** One more command of the cleanup. */
  lemma RanNow(c: Config, steps: seq<Step>, s: State, x: SessionId, commands: seq<SessionPc>, pc: SessionPc)
    ensures Stands(c, steps, s, x, pc) && s.sessions[x].who.Some? && Ran(c, steps, x, commands, |steps|) ==>
              Ran(c, steps + [Act(x, Go)], x, commands + [pc], |steps| + 1)
  {
    if Stands(c, steps, s, x, pc) && s.sessions[x].who.Some? && Ran(c, steps, x, commands, |steps|) {
      var all := steps + [Act(x, Go)];
      V.AtEnd(c, steps, Act(x, Go));
      hide At, Exec;
      RanStays(c, steps, Act(x, Go), x, commands, |steps|, |steps|);
      assert Does(c, all, |steps|, x, pc);
      assert (commands + [pc])[..|commands|] == commands;
    }
  }

  lemma LeftNow(c: Config, steps: seq<Step>, s: State, x: SessionId, pc: SessionPc, input: Input)
    ensures Stands(c, steps, s, x, pc) && LeavesTry(pc, input) ==> Ran(c, steps + [Act(x, input)], x, [], |steps| + 1)
  {
    if Stands(c, steps, s, x, pc) && LeavesTry(pc, input) {
      V.AtEnd(c, steps, Act(x, input));
      hide At, Exec, LeavesTry;
      assert Leaves(c, steps + [Act(x, input)], |steps|, x);
    }
  }

  /** A session that has queried is past the first stages. */
  lemma AbortedNow(c: Config, steps: seq<Step>, s: State, x: SessionId, pc: SessionPc)
    ensures Stands(c, steps, s, x, pc) && S.SnapshotOk(c, s.db.rows, s.sessions[x]) && !InTry(pc) && !Over(pc) ==>
              AbortedAt(c, steps + [Act(x, Break)], x, pc.GoingOnline? || pc.Removing? || pc.Unregistering?,
                        s.sessions[x].snapshot.Some?)
  {
    if Stands(c, steps, s, x, pc) {
      V.AtEnd(c, steps, Act(x, Break));
      hide At, Exec;
      assert Raises(c, steps + [Act(x, Break)], |steps|, x, pc);
      PcCases(pc);
      hide IsPage, UnreadOf, DistinctIds, Preserves;
    }
  }

  lemma SameTraced(c: Config, steps: seq<Step>, x: SessionId, q: Session, q': Session)
    requires Same(q, q')
    ensures Traced(c, steps, x, q) ==> Traced(c, steps, x, q')
  {
    hide Ran, AbortedAt;
  }

  /** The run has come to `s`, where everything is known about session `x`. */
  ghost predicate Ready(c: Config, steps: seq<Step>, s: State, x: SessionId) {
    && s == Exec(c, INIT, steps) && SessionLive(s, x)
    && Traced(c, steps, x, s.sessions[x]) && S.SnapshotOk(c, s.db.rows, s.sessions[x])
  }

  lemma OwnTraced(c: Config, steps: seq<Step>, s: State, x: SessionId, input: Input)
    ensures Ready(c, steps, s, x) ==>
      x in Acted(c, s, x, input).sessions && Traced(c, steps + [Act(x, input)], x, Acted(c, s, x, input).sessions[x])
  {
    if !Ready(c, steps, s, x) { return; }
    var q := s.sessions[x];
    ActEffects(c, s, x, input);
    var q' := Acted(c, s, x, input).sessions[x];
    EndMoves(c, s.redis, s.db, x, q, input, q');
    TracedStays(c, steps, Act(x, input), x, q);
    hide Acted, Moves, RegistryAfterGo, StatusAfterGo, Exec, Traced, Comes, S.SnapshotOk;
    if Same(q, q') {
      SameTraced(c, steps + [Act(x, input)], x, q, q');
    } else {
      TraceNow(c, steps, s, x, input, q');
    }
  }

  lemma TraceNow(c: Config, steps: seq<Step>, s: State, x: SessionId, input: Input, q': Session)
    ensures Ready(c, steps, s, x) && Comes(s.sessions[x], input, q') ==> Traced(c, steps + [Act(x, input)], x, q')
  {
    if !Ready(c, steps, s, x) || !Comes(s.sessions[x], input, q') { return; }
    var pc := s.sessions[x].pc;
    assert Stands(c, steps, s, x, pc);
    Stages();
    hide Exec, Ran, AbortedAt, S.SnapshotOk, SessionLive, InTry, LeavesTry, Stands, Over;
    match q'.pc
    case Removing => LeftNow(c, steps, s, x, pc, input);
    case Unregistering => RanNow(c, steps, s, x, [], Removing);
    case GoingOffline => RanNow(c, steps, s, x, [Removing], Unregistering);
    case Ended => RanNow(c, steps, s, x, [Removing, Unregistering], GoingOffline);
    case Aborted(_) => AbortedNow(c, steps, s, x, pc);
    case _ =>
  }

  lemma StepTraced(c: Config, steps: seq<Step>, s: State, step: Step)
    ensures s == Exec(c, INIT, steps) && AllTraced(c, steps, s.sessions) && S.Inv(c, s) ==>
              AllTraced(c, steps + [step], Apply(c, s, step).sessions)
  {
    if s != Exec(c, INIT, steps) || !AllTraced(c, steps, s.sessions) || !S.Inv(c, s) { return; }
    var t := Apply(c, s, step);
    S.SessionsMove(c, s, step);
    if step.Act? { ApplyAct(c, s, step.x, step.input); OwnTraced(c, steps, s, step.x, step.input); }
    hide Exec, Apply, Acted, Ran, AbortedAt, S.SnapshotOk, S.SentOk;
    forall x | x in t.sessions ensures Traced(c, steps + [step], x, t.sessions[x]) {
      if x in s.sessions {
        assert Traced(c, steps, x, s.sessions[x]);
        TracedStays(c, steps, step, x, s.sessions[x]);
      }
      hide Traced;
    }
  }

  lemma {:induction false} Always(c: Config, steps: seq<Step>)
    ensures AllTraced(c, steps, Exec(c, INIT, steps).sessions)
  {
    if steps == [] { return; }
    var before, step := steps[..|steps| - 1], steps[|steps| - 1];
    Always(c, before);
    S.Always(c, before);
    assert steps == before + [step];
    assert Exec(c, INIT, steps) == Apply(c, Exec(c, INIT, before), step);
    hide Exec, Apply, S.Inv, AllTraced;
    StepTraced(c, before, Exec(c, INIT, before), step);
  }

  /** In every run a session that has ended left the try block and then ran its whole cleanup, in order. */
  lemma EndedMeansCleanedUp(c: Config, steps: seq<Step>, s: State, x: SessionId)
    requires s == Exec(c, INIT, steps) && x in s.sessions && s.sessions[x].pc.Ended?
    ensures exists i: nat, j: nat, k: nat, m: nat ::
      && i < j < k < m && Leaves(c, steps, i, x)
      && Does(c, steps, j, x, Removing) && Does(c, steps, k, x, Unregistering) && Does(c, steps, m, x, GoingOffline)
  {
    Always(c, steps);
    assert Traced(c, steps, x, s.sessions[x]);
    assert Ran(c, steps, x, [Removing, Unregistering, GoingOffline], |steps|);
    hide *;
    var i, j, k, m := RanAll(c, steps, x, |steps|);
  }

  lemma RanAll(c: Config, steps: seq<Step>, x: SessionId, hi: nat) returns (i: nat, j: nat, k: nat, m: nat)
    requires Ran(c, steps, x, [Removing, Unregistering, GoingOffline], hi)
    ensures
      && i < j < k < m && Leaves(c, steps, i, x)
      && Does(c, steps, j, x, Removing) && Does(c, steps, k, x, Unregistering) && Does(c, steps, m, x, GoingOffline)
  {
    hide *;
    Stages();
    m := LastCommand(c, steps, x, [Removing, Unregistering], GoingOffline, hi);
    k := LastCommand(c, steps, x, [Removing], Unregistering, m);
    j := LastCommand(c, steps, x, [], Removing, k);
    i := FirstOfAll(c, steps, x, j);
  }

  lemma Stages()
    ensures [] + [Removing] == [Removing] && [Removing] + [Unregistering] == [Removing, Unregistering]
    ensures [Removing, Unregistering] + [GoingOffline] == [Removing, Unregistering, GoingOffline]
  {}

  lemma LastCommand(c: Config, steps: seq<Step>, x: SessionId, commands: seq<SessionPc>, last: SessionPc, hi: nat)
    returns (j: nat)
    requires Ran(c, steps, x, commands + [last], hi)
    ensures j < hi && Does(c, steps, j, x, last) && Ran(c, steps, x, commands, j)
  {
    var all := commands + [last];
    assert all[..|commands|] == commands && all[|commands|] == last;
    hide Does, Leaves;
    j :| j < hi && Does(c, steps, j, x, all[|commands|]) && Ran(c, steps, x, all[..|commands|], j);
  }

  lemma FirstOfAll(c: Config, steps: seq<Step>, x: SessionId, hi: nat) returns (i: nat)
    requires Ran(c, steps, x, [], hi)
    ensures i < hi && Leaves(c, steps, i, x)
  {
    hide Leaves;
    i :| i < hi && Leaves(c, steps, i, x);
  }

  /** In every run an aborted session raised outside the try block, and one that had queried its backlog raised in the
      cleanup: no exception while it is being served skips the cleanup. */
  lemma AbortedOutsideTheTry(c: Config, steps: seq<Step>, s: State, x: SessionId)
    requires s == Exec(c, INIT, steps) && x in s.sessions && s.sessions[x].pc.Aborted?
    ensures exists j: nat, pc ::
      && Raises(c, steps, j, x, pc) && !InTry(pc) && (s.sessions[x].snapshot.Some? ==> InCleanup(pc))
      && (s.sessions[x].pc.registered <==> pc.GoingOnline? || pc.Removing? || pc.Unregistering?)
  {
    Always(c, steps);
    assert Traced(c, steps, x, s.sessions[x]);
    hide Exec, Raises, AllTraced;
  }
}
