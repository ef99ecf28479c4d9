/** Draining the unread backlog: connect, read the backlog, acknowledge it, reconnect. */
module Backlog {
  import opened Model
  import opened Arithmetic
  import opened Repository

  /** Read receipts for these notifications at these times, one transaction each. */
  ghost function Acknowledge(db: Database, u: UserId, acks: seq<(NotificationId, Time)>): Database {
    if acks == [] then db
    else
      var last := |acks| - 1;
      RecordRead(Acknowledge(db, u, acks[..last]), acks[last].0, u, acks[last].1)
  }

  ghost predicate AcksFor(acks: seq<(NotificationId, Time)>, n: NotificationId) {
    exists k :: 0 <= k < |acks| && acks[k].0 == n
  }

  /** Every row of the page is acknowledged, in any order and any number of times, and nothing else is. */
  ghost predicate AcksExactly(acks: seq<(NotificationId, Time)>, page: seq<Row>) {
    forall n :: AcksFor(acks, n) <==> HasRow(page, n)
  }

  lemma OneAck(rows: seq<Row>, n: NotificationId, u: UserId, at: Time, r: Row)
    ensures r in UnreadOf(SetRead(rows, n, u, at), u) <==> r in UnreadOf(rows, u) && r.note.nid != n
  {
    var after := SetRead(rows, n, u, at);
    if r in rows {
      var k :| 0 <= k < |rows| && rows[k] == r;
      assert after[k] in after;
    }
    if r in after {
      var k :| 0 <= k < |after| && after[k] == r;
      assert rows[k] in rows;
    }
  }

  lemma {:induction false} UnreadAfterAcks(db: Database, u: UserId, acks: seq<(NotificationId, Time)>, r: Row)
    ensures r in UnreadOf(Acknowledge(db, u, acks).rows, u) <==> r in UnreadOf(db.rows, u) && !AcksFor(acks, r.note.nid)
  {
    if acks != [] {
      var last := |acks| - 1;
      var mid := Acknowledge(db, u, acks[..last]);
      UnreadAfterAcks(db, u, acks[..last], r);
      OneAck(mid.rows, acks[last].0, u, acks[last].1, r);
      assert AcksFor(acks, r.note.nid) <==> AcksFor(acks[..last], r.note.nid) || acks[last].0 == r.note.nid;
      if !Owns(mid.rows, acks[last].0, u) {
        NothingToRead(mid.rows, acks[last].0, u, acks[last].1);
      }
    }
  }

  lemma {:induction false} AcknowledgeKeeps(db: Database, u: UserId, acks: seq<(NotificationId, Time)>)
    requires Sound(db)
    ensures Sound(Acknowledge(db, u, acks))
  {
    if acks != [] {
      var last := |acks| - 1;
      AcknowledgeKeeps(db, u, acks[..last]);
      RecordReadKeeps(Acknowledge(db, u, acks[..last]), acks[last].0, u, acks[last].1);
    }
  }

  /** Successive connects: each backlog is some answer of the query, and is acknowledged before the next. */
  ghost predicate Drains(
    db: Database, u: UserId, limit: nat, pages: seq<seq<Row>>, acks: seq<seq<(NotificationId, Time)>>)
    decreases |pages|
  {
    && |pages| == |acks|
    && (pages != [] ==>
          && IsPage(true, pages[0], UnreadOf(db.rows, u), limit)
          && AcksExactly(acks[0], pages[0])
          && Drains(Acknowledge(db, u, acks[0]), u, limit, pages[1..], acks[1..]))
  }

  ghost function Flatten(pages: seq<seq<Row>>): seq<Row> {
    if pages == [] then [] else pages[0] + Flatten(pages[1..])
  }

  /** Ids are unique, so an acknowledgement names a row of the page only if the row is in it. */
  lemma AcknowledgedIsInPage(
    rows: seq<Row>, unread: set<Row>, page: seq<Row>, acks: seq<(NotificationId, Time)>, r: Row)
    requires DistinctIds(rows) && (forall x :: x in unread ==> x in rows) && Elements(page) <= unread
    requires AcksExactly(acks, page) && r in unread
    ensures AcksFor(acks, r.note.nid) <==> r in page
  {
    assert AcksFor(acks, r.note.nid) <==> HasRow(page, r.note.nid);
    if HasRow(page, r.note.nid) {
      var k :| 0 <= k < |page| && page[k].note.nid == r.note.nid;
      assert page[k] in Elements(page);
      assert page[k] in rows && r in rows;
      assert page[k] == r;
    }
  }

  /** Acknowledging a page removes exactly its rows from the unread ones. */
  lemma PageRemoved(db: Database, u: UserId, limit: nat, page: seq<Row>, acks: seq<(NotificationId, Time)>)
    requires Sound(db) && IsPage(true, page, UnreadOf(db.rows, u), limit) && AcksExactly(acks, page)
    ensures UnreadOf(Acknowledge(db, u, acks).rows, u) == UnreadOf(db.rows, u) - Elements(page)
    ensures |UnreadOf(Acknowledge(db, u, acks).rows, u)| == |UnreadOf(db.rows, u)| - |page|
  {
    var unread := UnreadOf(db.rows, u);
    assert forall x :: x in unread ==> x in db.rows;
    SizeOfElements(page);
    hide UnreadOf, Acknowledge, AcksExactly, AcksFor, ReadStateAgrees;
    forall r ensures r in UnreadOf(Acknowledge(db, u, acks).rows, u) <==> r in unread - Elements(page) {
      UnreadAfterAcks(db, u, acks, r);
      if r in unread { AcknowledgedIsInPage(db.rows, unread, page, acks, r); }
    }
  }

  /** After ceil(n / limit) acknowledged connects every one of the n unread rows has been seen exactly once, oldest
      first across all backlogs, no backlog on the way was empty, and nothing unread is left. */
  lemma {:induction false} BacklogDrains(
    db: Database, u: UserId, limit: nat, pages: seq<seq<Row>>, acks: seq<seq<(NotificationId, Time)>>)
    requires Sound(db) && limit > 0 && Drains(db, u, limit, pages, acks)
    requires |pages| == CeilDiv(|UnreadOf(db.rows, u)|, limit)
    ensures forall k :: 0 <= k < |pages| ==> pages[k] != []
    ensures Elements(Flatten(pages)) == UnreadOf(db.rows, u)
    ensures NoRepeats(Flatten(pages)) && Sorted(true, Flatten(pages))
    decreases |pages|
  {
    if pages == [] { return; }
    var unread, page, next := UnreadOf(db.rows, u), pages[0], Acknowledge(db, u, acks[0]);
    assert IsPage(true, page, unread, limit) && AcksExactly(acks[0], page)
      && Drains(next, u, limit, pages[1..], acks[1..]);
    assert |page| == if |unread| < limit then |unread| else limit;
    assert Flatten(pages) == page + Flatten(pages[1..]);
    assert forall k :: 1 <= k < |pages| ==> pages[k] == pages[1..][k - 1];
    hide Acknowledge, Drains, UnreadOf, Sound, AcksExactly, CeilDiv, IsPage, Flatten;
    PageRemoved(db, u, limit, page, acks[0]);
    AcknowledgeKeeps(db, u, acks[0]);
    CountDown(|unread|, |page|, limit);
    BacklogDrains(next, u, limit, pages[1..], acks[1..]);
    JoinPages(page, Flatten(pages[1..]), unread, limit);
  }

  lemma CountDown(n: nat, page: nat, limit: nat)
    requires limit > 0 && page == (if n < limit then n else limit) && CeilDiv(n, limit) > 0
    ensures page > 0 && CeilDiv(n - page, limit) == CeilDiv(n, limit) - 1
  {
    if n <= limit { assert CeilDiv(n - limit, limit) == 0; }
  }

  lemma JoinPages(page: seq<Row>, rest: seq<Row>, unread: set<Row>, limit: nat)
    requires IsPage(true, page, unread, limit) && Elements(rest) == unread - Elements(page)
    requires NoRepeats(rest) && Sorted(true, rest)
    ensures Elements(page + rest) == unread && NoRepeats(page + rest) && Sorted(true, page + rest)
  {
    var all := page + rest;
    forall i, j | 0 <= i < j < |all| ensures all[i] != all[j] && Precedes(true, all[i], all[j]) {
      if i < |page| <= j {
        assert page[i] in Elements(page) && rest[j - |page|] in Elements(rest);
      }
    }
    forall r | r in unread ensures r in Elements(all) {
      assert r in Elements(page) || r in Elements(rest);
    }
    assert forall r :: r in page || r in rest <==> r in all;
    assert Elements(all) == Elements(page) + Elements(rest);
  }

  /** Once nothing is unread, every further backlog is empty, and the empty one comes only then. */
  lemma EmptyBacklogIff(db: Database, u: UserId, limit: nat, page: seq<Row>)
    requires limit > 0 && IsPage(true, page, UnreadOf(db.rows, u), limit)
    ensures page == [] <==> UnreadOf(db.rows, u) == {}
  {}
}
