/** The sockets one gateway instance holds, and what sending to a user does to them. */
module Connections {
  import opened Model
  import opened RedisServer
  import opened Protocol
  import opened Frames

  /** The map from users to sockets, and every live frame a socket took. */
  datatype Local = Local(connections: Conns, sent: seq<Frame>)

  /** A send reaches the socket the user has here, if any; `ok` says whether that socket takes it. */
  function Send(l: Local, u: UserId, note: Envelope, ok: bool): (Local, bool) {
    if u !in l.connections then (l, false)
    else if ok then (l.(sent := l.sent + [Frame(l.connections[u], note)]), true)
    else (l.(connections := l.connections - {u}), false)
  }

  class ConnectionManager {
    var connections: Conns
    var sent: seq<Frame>

    function Contents(): Local
      reads this
    {
      Local(connections, sent)
    }

    constructor ()
      ensures Contents() == Local(map[], [])
    {
      connections, sent := map[], [];
    }

    method Add(u: UserId, socket: SessionId)
      modifies this
      ensures Contents() == Local(old(connections)[u := socket], old(sent))
    {
      connections := connections[u := socket];
    }

    method Remove(u: UserId)
      modifies this
      ensures Contents() == Local(old(connections) - {u}, old(sent))
    {
      connections := connections - {u};
    }

    method SendJson(u: UserId, note: Envelope, ok: bool) returns (delivered: bool)
      modifies this
      ensures (Contents(), delivered) == Send(old(Contents()), u, note, ok)
    {
      if u !in connections {
        return false;
      }
      if ok {
        sent := sent + [Frame(connections[u], note)];
        return true;
      }
      Remove(u);
      delivered := false;
    }

    /** The connected users in some order, each once. */
    method ConnectedUserIds() returns (users: seq<UserId>)
      ensures Each(users, connections.Keys)
    {
      users := [];
      var left := connections.Keys;
      while left != {}
        invariant left <= connections.Keys
        invariant Each(users, connections.Keys - left)
        decreases |left|
      {
        var u :| u in left;
        users := users + [u];
        left := left - {u};
      }
    }

    /** Closes the sockets held here and reports whose they were; a close that fails is logged and skipped.
        `meanwhile[k]` is what other tasks do to the map while the socket of the k-th user is being closed. */
    method CloseAll(meanwhile: seq<seq<Change>>) returns (users: seq<UserId>, closed: seq<SessionId>)
      modifies this
      ensures sent == old(sent)
      ensures Each(users, old(connections).Keys)
      ensures connections == Changed(old(connections), Closing(old(connections), users, meanwhile, |users|).0)
      ensures closed == Closing(old(connections), users, meanwhile, |users|).1
      ensures forall u :: u in connections ==> Opens(meanwhile, u, connections[u])
      ensures meanwhile == [] ==>
        && connections == map[] && |closed| == |users|
        && forall k :: 0 <= k < |users| ==> closed[k] == old(connections)[users[k]]
    {
      users := ConnectedUserIds();
      closed := [];
      var k := 0;
      hide ClosedSoFar, Closing, Changed, Opens, Taken;
      NoTurnYet(connections, users, meanwhile);
      while k < |users|
        invariant 0 <= k <= |users| && sent == old(sent)
        invariant ClosedSoFar(old(connections), users, meanwhile, k, connections, closed)
      {
        OneMoreTurn(old(connections), users, meanwhile, k, connections, closed);
        var u := users[k];
        if u in connections {
          closed := closed + [connections[u]];
          var popped := connections - {u};
          connections := if k < |meanwhile| then Changed(popped, meanwhile[k]) else popped;
        }
        k := k + 1;
      }
      ClosedMeans(old(connections), users, meanwhile, connections, closed);
    }
  }

  // ----- What other tasks do to the map meanwhile -----

  datatype Change = Opened(user: UserId, socket: SessionId) | Left(user: UserId)

  function Changed(conns: Conns, changes: seq<Change>): Conns {
    if changes == [] then conns
    else
      var before := Changed(conns, changes[..|changes| - 1]);
      match changes[|changes| - 1]
      case Opened(u, y) => before[u := y]
      case Left(u) => before - {u}
  }

  ghost predicate Opens(meanwhile: seq<seq<Change>>, u: UserId, y: SessionId) {
    exists k :: 0 <= k < |meanwhile| && Opened(u, y) in meanwhile[k]
  }

  /** The socket was here from the start and its turn has not come, or it came meanwhile. */
  ghost predicate Remains(
    start: Conns, users: seq<UserId>, k: nat, meanwhile: seq<seq<Change>>, u: UserId, y: SessionId)
    requires k <= |users|
  {
    (u in start && u !in Taken(users, k) && start[u] == y) || Opens(meanwhile, u, y)
  }

  lemma {:induction false} ChangedFrom(conns: Conns, changes: seq<Change>, u: UserId)
    ensures u in Changed(conns, changes) ==>
      (u in conns && conns[u] == Changed(conns, changes)[u]) || Opened(u, Changed(conns, changes)[u]) in changes
  {
    if changes != [] { ChangedFrom(conns, changes[..|changes| - 1], u); }
  }

  // ----- What closing comes to, round by round -----

  ghost function During(meanwhile: seq<seq<Change>>, k: nat): seq<Change> {
    if k < |meanwhile| then meanwhile[k] else []
  }

  /** What happened to the map in the turns of the first `k` users, and the sockets closed in them. A user who is not
      here any more is skipped; otherwise the socket goes, and other tasks run while it is being closed. */
  ghost function Closing(start: Conns, users: seq<UserId>, meanwhile: seq<seq<Change>>, k: nat)
    : (seq<Change>, seq<SessionId>)
    requires k <= |users|
  {
    if k == 0 then ([], [])
    else
      var (past, closed) := Closing(start, users, meanwhile, k - 1);
      var u, now := users[k - 1], Changed(start, past);
      if u !in now then (past, closed) else (past + ([Left(u)] + During(meanwhile, k - 1)), closed + [now[u]])
  }

  lemma {:induction false} ChangedSplit(conns: Conns, first: seq<Change>, more: seq<Change>)
    ensures Changed(conns, first + more) == Changed(Changed(conns, first), more)
  {
    if more == [] {
      assert first + more == first;
    } else {
      var n := |more| - 1;
      ChangedSplit(conns, first, more[..n]);
      assert (first + more)[..|first + more| - 1] == first + more[..n];
    }
  }

  /** After the turns of the first `k` users. */
  ghost predicate ClosedSoFar(
    start: Conns, users: seq<UserId>, meanwhile: seq<seq<Change>>, k: nat, conns: Conns, closed: seq<SessionId>)
    requires k <= |users|
  {
    conns == Changed(start, Closing(start, users, meanwhile, k).0) && closed == Closing(start, users, meanwhile, k).1
  }

  lemma OneMoreTurn(
    start: Conns, users: seq<UserId>, meanwhile: seq<seq<Change>>, k: nat, conns: Conns, closed: seq<SessionId>)
    requires k < |users| && ClosedSoFar(start, users, meanwhile, k, conns, closed)
    ensures users[k] !in conns ==> ClosedSoFar(start, users, meanwhile, k + 1, conns, closed)
    ensures users[k] in conns ==>
      var popped := conns - {users[k]};
      ClosedSoFar(start, users, meanwhile, k + 1, if k < |meanwhile| then Changed(popped, meanwhile[k]) else popped,
                  closed + [conns[users[k]]])
  {
    if users[k] in conns { ClosedOnce(start, users, meanwhile, k); }
    hide Changed;
  }

  lemma ClosedMeans(
    start: Conns, users: seq<UserId>, meanwhile: seq<seq<Change>>, conns: Conns, closed: seq<SessionId>)
    requires ClosedSoFar(start, users, meanwhile, |users|, conns, closed)
    requires Each(users, start.Keys)
    ensures conns == Changed(start, Closing(start, users, meanwhile, |users|).0)
    ensures closed == Closing(start, users, meanwhile, |users|).1
    ensures forall u :: u in conns ==> Opens(meanwhile, u, conns[u])
    ensures meanwhile == [] ==>
      conns == map[] && |closed| == |users| && forall k :: 0 <= k < |users| ==> closed[k] == start[users[k]]
  {
    assert Taken(users, |users|) == start.Keys;
    AllRemain(start, users, |users|, meanwhile);
    if meanwhile == [] { Undisturbed(start, users, |users|); }
    hide Changed, Closing, Opens;
  }

  lemma NoTurnYet(start: Conns, users: seq<UserId>, meanwhile: seq<seq<Change>>)
    ensures ClosedSoFar(start, users, meanwhile, 0, start, [])
  {}

  ghost predicate EachRemains(start: Conns, users: seq<UserId>, k: nat, meanwhile: seq<seq<Change>>, conns: Conns)
    requires k <= |users|
  {
    forall v :: v in conns ==> Remains(start, users, k, meanwhile, v, conns[v])
  }

  lemma {:induction false} AllRemain(start: Conns, users: seq<UserId>, k: nat, meanwhile: seq<seq<Change>>)
    requires k <= |users|
    ensures EachRemains(start, users, k, meanwhile, Changed(start, Closing(start, users, meanwhile, k).0))
  {
    hide Changed, Closing, EachRemains;
    if k == 0 {
      NoTurnYet(start, users, meanwhile);
      RemainAtFirst(start, users, meanwhile);
    } else {
      AllRemain(start, users, k - 1, meanwhile);
      var now := Changed(start, Closing(start, users, meanwhile, k - 1).0);
      OneMoreTurn(start, users, meanwhile, k - 1, now, Closing(start, users, meanwhile, k - 1).1);
      TurnRemains(start, users, k - 1, meanwhile, now);
    }
  }

  lemma RemainAtFirst(start: Conns, users: seq<UserId>, meanwhile: seq<seq<Change>>)
    ensures EachRemains(start, users, 0, meanwhile, start)
  {}

  lemma TurnRemains(start: Conns, users: seq<UserId>, k: nat, meanwhile: seq<seq<Change>>, conns: Conns)
    requires k < |users| && EachRemains(start, users, k, meanwhile, conns)
    ensures var popped := conns - {users[k]};
      EachRemains(start, users, k + 1, meanwhile, if k < |meanwhile| then Changed(popped, meanwhile[k]) else popped)
    ensures users[k] !in conns ==> EachRemains(start, users, k + 1, meanwhile, conns)
  {
    var popped := conns - {users[k]};
    SomeRemain(start, users, k, meanwhile, conns);
    if k < |meanwhile| { StillRemains(start, users, k, meanwhile, popped, meanwhile[k]); }
    assert users[k] !in conns ==> popped == conns;
    hide Changed, Remains;
  }

  ghost predicate ClosedInTurn(start: Conns, users: seq<UserId>, k: nat, conns: Conns, closed: seq<SessionId>)
    requires k <= |users| && Each(users, start.Keys)
  {
    conns == start - Taken(users, k) && |closed| == k && forall j :: 0 <= j < k ==> closed[j] == start[users[j]]
  }

  /** With nothing else going on, every socket is closed in its turn. */
  lemma {:induction false} Undisturbed(start: Conns, users: seq<UserId>, k: nat)
    requires k <= |users| && Each(users, start.Keys)
    ensures var (past, closed) := Closing(start, users, [], k);
      ClosedInTurn(start, users, k, Changed(start, past), closed)
  {
    if k == 0 { return; }
    Undisturbed(start, users, k - 1);
    var (past, closed) := Closing(start, users, [], k - 1);
    OneMoreTurn(start, users, [], k - 1, Changed(start, past), closed);
    hide Changed, Closing;
    NextInTurn(start, users, k - 1, Changed(start, past), closed);
    hide ClosedInTurn, Each;
  }

  lemma NextInTurn(start: Conns, users: seq<UserId>, k: nat, conns: Conns, closed: seq<SessionId>)
    requires k < |users| && Each(users, start.Keys) && ClosedInTurn(start, users, k, conns, closed)
    ensures users[k] in conns
    ensures ClosedInTurn(start, users, k + 1, conns - {users[k]}, closed + [conns[users[k]]])
  {
    assert users[k] !in Taken(users, k) && Taken(users, k + 1) == Taken(users, k) + {users[k]};
  }

  lemma SomeRemain(start: Conns, users: seq<UserId>, k: nat, meanwhile: seq<seq<Change>>, conns: Conns)
    requires k < |users| && EachRemains(start, users, k, meanwhile, conns)
    ensures EachRemains(start, users, k + 1, meanwhile, conns - {users[k]})
  {
    assert Taken(users, k + 1) == Taken(users, k) + {users[k]};
  }

  lemma ClosedOnce(start: Conns, users: seq<UserId>, meanwhile: seq<seq<Change>>, k: nat)
    requires k < |users| && users[k] in Changed(start, Closing(start, users, meanwhile, k).0)
    ensures var now := Changed(start, Closing(start, users, meanwhile, k).0); var popped := now - {users[k]};
      Changed(start, Closing(start, users, meanwhile, k + 1).0) ==
      if k < |meanwhile| then Changed(popped, meanwhile[k]) else popped
  {
    var past := Closing(start, users, meanwhile, k).0;
    var u := users[k];
    ChangedSplit(start, past, [Left(u)] + During(meanwhile, k));
    ChangedSplit(Changed(start, past), [Left(u)], During(meanwhile, k));
    assert [Left(u)][..0] == [];
  }

  ghost predicate UntouchedSince(changes: seq<Change>, i: nat, u: UserId) {
    forall j :: i <= j < |changes| ==> changes[j].user != u
  }

  /** `y` is the socket the changes give the user: opened last and not left since, or there from the start. */
  ghost predicate Holds(conns: Conns, changes: seq<Change>, u: UserId, y: SessionId) {
    || (exists i: nat :: i < |changes| && changes[i] == Opened(u, y) && UntouchedSince(changes, i + 1, u))
    || (u in conns && conns[u] == y && UntouchedSince(changes, 0, u))
  }

  lemma HoldsMore(conns: Conns, changes: seq<Change>, last: Change, u: UserId, y: SessionId)
    ensures Holds(conns, changes + [last], u, y) <==>
      last == Opened(u, y) || (last.user != u && Holds(conns, changes, u, y))
  {
    var all := changes + [last];
    assert all[|changes|] == last && forall j :: 0 <= j < |changes| ==> all[j] == changes[j];
    if last == Opened(u, y) { assert UntouchedSince(all, |changes| + 1, u); }
    if last.user != u && Holds(conns, changes, u, y) {
      if i: nat :| i < |changes| && changes[i] == Opened(u, y) && UntouchedSince(changes, i + 1, u) {
        assert all[i] == Opened(u, y) && UntouchedSince(all, i + 1, u);
      }
    }
    if Holds(conns, all, u, y) && last != Opened(u, y) {
      if i: nat :| i < |all| && all[i] == Opened(u, y) && UntouchedSince(all, i + 1, u) {
        assert i < |changes| && UntouchedSince(changes, i + 1, u);
      }
    }
  }

  /** The map gives a user the socket opened last, unless the user left or was closed since, or the one of the start. */
  lemma {:induction false} SocketAfter(conns: Conns, changes: seq<Change>, u: UserId, y: SessionId)
    ensures (u in Changed(conns, changes) && Changed(conns, changes)[u] == y) <==> Holds(conns, changes, u, y)
  {
    if changes != [] {
      var n := |changes| - 1;
      SocketAfter(conns, changes[..n], u, y);
      assert changes == changes[..n] + [changes[n]];
      HoldsMore(conns, changes[..n], changes[n], u, y);
      hide Holds;
    }
  }

  /** Every user who was connected at the start and is not touched by another task meanwhile has the socket closed. */
  lemma {:induction false} UntouchedAreClosed(
    start: Conns, users: seq<UserId>, meanwhile: seq<seq<Change>>, k: nat, p: nat)
    requires p < |users| && k <= |users| && Each(users, start.Keys)
    requires forall j | 0 <= j < |meanwhile| :: UntouchedSince(meanwhile[j], 0, users[p])
    ensures var (past, closed) := Closing(start, users, meanwhile, k);
      UntouchedAt(start, users[p], k <= p, Changed(start, past), closed)
  {
    hide Changed, Closing, UntouchedSince;
    NoTurnYet(start, users, meanwhile);
    assert users[p] in start;
    if k == 0 { return; }
    UntouchedAreClosed(start, users, meanwhile, k - 1, p);
    hide UntouchedAt;
    var (past, closed) := Closing(start, users, meanwhile, k - 1);
    var u, v, now := users[p], users[k - 1], Changed(start, past);
    OneMoreTurn(start, users, meanwhile, k - 1, now, closed);
    if k - 1 < |meanwhile| { StaysUntouched(now - {v}, meanwhile[k - 1], u); }
    UntouchedTurn(start, users, k - 1, p, now, closed,
      if k - 1 < |meanwhile| then Changed(now - {v}, meanwhile[k - 1]) else now - {v});
  }

  lemma UntouchedTurn(
    start: Conns, users: seq<UserId>, k: nat, p: nat, now: Conns, closed: seq<SessionId>, after: Conns)
    requires k < |users| && p < |users| && Each(users, start.Keys)
    requires UntouchedAt(start, users[p], k <= p, now, closed)
    requires users[p] in after <==> users[p] in now - {users[k]}
    requires users[p] in after ==> after[users[p]] == now[users[p]]
    ensures users[k] in now ==> UntouchedAt(start, users[p], k + 1 <= p, after, closed + [now[users[k]]])
    ensures users[k] !in now ==> UntouchedAt(start, users[p], k + 1 <= p, now, closed)
  {}

  /** Before the user's turn the user's socket is there, after it it is closed. */
  ghost predicate UntouchedAt(start: Conns, u: UserId, ahead: bool, conns: Conns, closed: seq<SessionId>)
    requires u in start
  {
    if ahead then u in conns && conns[u] == start[u] else start[u] in closed && u !in conns
  }

  lemma {:induction false} StaysUntouched(conns: Conns, changes: seq<Change>, u: UserId)
    requires UntouchedSince(changes, 0, u)
    ensures u in Changed(conns, changes) <==> u in conns
    ensures u in conns ==> Changed(conns, changes)[u] == conns[u]
  {
    if changes != [] {
      assert UntouchedSince(changes[..|changes| - 1], 0, u);
      StaysUntouched(conns, changes[..|changes| - 1], u);
    }
  }

  lemma StillRemains(
    start: Conns, users: seq<UserId>, k: nat, meanwhile: seq<seq<Change>>, popped: Conns, changes: seq<Change>)
    requires k < |users| && k < |meanwhile| && changes == meanwhile[k]
    requires EachRemains(start, users, k + 1, meanwhile, popped)
    ensures EachRemains(start, users, k + 1, meanwhile, Changed(popped, changes))
  {
    forall v | v in Changed(popped, changes)
      ensures Remains(start, users, k + 1, meanwhile, v, Changed(popped, changes)[v])
    {
      ChangedFrom(popped, changes, v);
    }
  }

  /** `xs` lists the elements of `all`, each once. */
  ghost predicate Each(xs: seq<UserId>, all: set<UserId>) {
    && (forall u :: u in xs <==> u in all)
    && (forall i, j :: 0 <= i < j < |xs| ==> xs[i] != xs[j])
  }

  function Taken(users: seq<UserId>, k: nat): (taken: set<UserId>)
    requires k <= |users|
  {
    set j | 0 <= j < k :: users[j]
  }

  /** In the running system a pickup followed by its completion is one send to the instance's sockets. */
  lemma DeliveryIsSend(c: Config, s: State, k: nat, ok: bool)
    requires CanPickUp(s, k)
    ensures var p := s.redis.channels.wire[k];
      var t := Apply(c, s, PickUp(k));
      var t' := if |t.sending| > |s.sending| then Apply(c, t, Complete(|s.sending|, ok)) else t;
      p.inst in t'.instances &&
      Local(t'.instances[p.inst].conns, t'.frames) ==
        Send(Local(s.instances[p.inst].conns, s.frames), p.user, p.note, ok).0
  {
    var p := s.redis.channels.wire[k];
    var t := Apply(c, s, PickUp(k));
    PickUpFrame(s, k);
    assert t == PickedUp(s, k);
    assert p.user in s.instances[p.inst].conns ==>
      t.sending == s.sending + [Delivery(p, s.instances[p.inst].conns[p.user])];
    assert t.frames == s.frames;
    hide CanPickUp, Without;
  }
}
