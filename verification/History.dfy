/** Cursor paging through the notification history. */
module History {
  import opened Model
  import opened Repository
  import B = Backlog

  /** The cursor is the last timestamp of a full page; a shorter page ends the history. */
  function NextCursor(page: seq<Row>, limit: nat): Option<Time> {
    if |page| == limit && page != [] then Some(page[|page| - 1].note.createdAt) else None
  }

  datatype HistoryPage = HistoryPage(notifications: seq<Row>, nextCursor: Option<Time>)

  /** The route accepts only limits of at least 1. */
  method GetHistory(repository: NotificationRepository, u: UserId, limit: nat, before: Option<Time>)
    returns (page: HistoryPage)
    requires limit >= 1
    ensures IsPage(false, page.notifications, HistoryOf(repository.session.db.rows, u, before), limit)
    ensures PageOfHistory(repository.session.db.rows, u, limit, before, page.notifications)
    ensures page.nextCursor == NextCursor(page.notifications, limit)
    ensures page.nextCursor.Some? <==> |page.notifications| == limit
    ensures page.nextCursor.Some? ==> page.nextCursor.value == page.notifications[limit - 1].note.createdAt
  {
    var rows := repository.GetHistory(u, limit, before);
    page := HistoryPage(rows, if |rows| == limit then Some(rows[|rows| - 1].note.createdAt) else None);
  }

  /** Requests that each follow the previous cursor, on a table that does not change meanwhile. */
  ghost predicate Follows(rows: seq<Row>, u: UserId, limit: nat, before: Option<Time>, pages: seq<seq<Row>>)
    decreases |pages|
  {
    && pages != []
    && IsPage(false, pages[0], HistoryOf(rows, u, before), limit)
    && (|pages| > 1 ==>
          NextCursor(pages[0], limit).Some? && Follows(rows, u, limit, NextCursor(pages[0], limit), pages[1..]))
  }

  ghost predicate Finished(limit: nat, pages: seq<seq<Row>>) {
    pages != [] && NextCursor(pages[|pages| - 1], limit).None?
  }

  ghost predicate DistinctTimes(s: set<Row>) {
    forall a, b :: a in s && b in s && a != b ==> a.note.createdAt != b.note.createdAt
  }

  /** A full page and all later candidates are disjoint parts of the candidates before it. */
  lemma PageThenRest(rows: seq<Row>, u: UserId, limit: nat, before: Option<Time>, page: seq<Row>)
    requires limit > 0 && IsPage(false, page, HistoryOf(rows, u, before), limit) && NextCursor(page, limit).Some?
    ensures var rest := HistoryOf(rows, u, NextCursor(page, limit));
      && rest <= HistoryOf(rows, u, before) - Elements(page)
      && |rest| + limit <= |HistoryOf(rows, u, before)|
      && (forall r :: r in HistoryOf(rows, u, before) - Elements(page) - rest ==>
            r.note.createdAt == NextCursor(page, limit).value)
  {
    var all, rest := HistoryOf(rows, u, before), HistoryOf(rows, u, NextCursor(page, limit));
    var last := page[|page| - 1];
    assert last in Elements(page);
    assert forall k :: 0 <= k < |page| ==> page[k].note.createdAt >= last.note.createdAt;
    assert rest <= all - Elements(page);
    forall r | r in all - Elements(page) - rest ensures r.note.createdAt == last.note.createdAt {
      assert Precedes(false, last, r);
    }
    SizeOfElements(page);
    SubsetSize(rest, all - Elements(page));
    SubsetSize(Elements(page), all);
  }

  lemma ShortPageIsAll(page: seq<Row>, all: set<Row>, limit: nat)
    requires limit > 0 && IsPage(false, page, all, limit) && NextCursor(page, limit).None?
    ensures Elements(page) == all
  {
    SizeOfElements(page);
    SubsetSize(Elements(page), all);
    assert all == Elements(page) + (all - Elements(page));
  }

  /** Paging ends: all requests but the last return `limit` fresh rows, so there are at most n / limit of them. */
  lemma {:induction false} PagingTerminates(
    rows: seq<Row>, u: UserId, limit: nat, before: Option<Time>, pages: seq<seq<Row>>)
    requires limit > 0 && Follows(rows, u, limit, before, pages)
    ensures (|pages| - 1) * limit <= |HistoryOf(rows, u, before)|
    decreases |pages|
  {
    if |pages| > 1 {
      PageThenRest(rows, u, limit, before, pages[0]);
      PagingTerminates(rows, u, limit, NextCursor(pages[0], limit), pages[1..]);
      assert (|pages| - 1) * limit == (|pages| - 2) * limit + limit;
    }
  }

  /** No row comes twice, and time never increases from row to row, across pages too. */
  lemma {:induction false} PagingNeverRepeats(
    rows: seq<Row>, u: UserId, limit: nat, before: Option<Time>, pages: seq<seq<Row>>)
    requires limit > 0 && Follows(rows, u, limit, before, pages)
    ensures NoRepeats(B.Flatten(pages)) && Sorted(false, B.Flatten(pages))
    ensures Elements(B.Flatten(pages)) <= HistoryOf(rows, u, before)
    decreases |pages|
  {
    if |pages| > 1 {
      var cursor := NextCursor(pages[0], limit);
      PageThenRest(rows, u, limit, before, pages[0]);
      PagingNeverRepeats(rows, u, limit, cursor, pages[1..]);
      JoinDescending(pages[0], B.Flatten(pages[1..]), rows, u, cursor);
      assert B.Flatten(pages) == pages[0] + B.Flatten(pages[1..]);
    } else {
      assert pages[1..] == [];
      assert B.Flatten(pages) == pages[0];
    }
  }

  lemma JoinDescending(page: seq<Row>, rest: seq<Row>, rows: seq<Row>, u: UserId, cursor: Option<Time>)
    requires page != [] && cursor == Some(page[|page| - 1].note.createdAt)
    requires NoRepeats(page) && Sorted(false, page) && NoRepeats(rest) && Sorted(false, rest)
    requires Elements(rest) <= HistoryOf(rows, u, cursor)
    ensures NoRepeats(page + rest) && Sorted(false, page + rest)
    ensures Elements(page + rest) == Elements(page) + Elements(rest)
  {
    assert forall k :: 0 <= k < |rest| ==> rest[k] in Elements(rest) && rest[k].note.createdAt < cursor.value;
    assert forall k :: 0 <= k < |page| ==> page[k].note.createdAt >= cursor.value;
  }

  /** A row the finished paging misses was created at exactly the time of one of the cursors it followed. */
  lemma {:induction false} MissedRowsTieWithACursor(
    rows: seq<Row>, u: UserId, limit: nat, before: Option<Time>, pages: seq<seq<Row>>, r: Row)
    requires limit > 0 && Follows(rows, u, limit, before, pages) && Finished(limit, pages)
    requires r in HistoryOf(rows, u, before) && r !in B.Flatten(pages)
    ensures exists k :: 0 <= k < |pages| - 1 && NextCursor(pages[k], limit) == Some(r.note.createdAt)
    decreases |pages|
  {
    assert B.Flatten(pages) == pages[0] + B.Flatten(pages[1..]);
    assert r !in pages[0];
    if |pages| == 1 {
      ShortPageIsAll(pages[0], HistoryOf(rows, u, before), limit);
      assert false;
    } else {
      var cursor := NextCursor(pages[0], limit);
      PageThenRest(rows, u, limit, before, pages[0]);
      if r in HistoryOf(rows, u, cursor) {
        MissedRowsTieWithACursor(rows, u, limit, cursor, pages[1..], r);
        var k :| 0 <= k < |pages[1..]| - 1 && NextCursor(pages[1..][k], limit) == Some(r.note.createdAt);
        assert pages[k + 1] == pages[1..][k];
      }
    }
  }

  /** With distinct timestamps the finished pages are the whole history. */
  lemma {:induction false} PagingIsExact(
    rows: seq<Row>, u: UserId, limit: nat, before: Option<Time>, pages: seq<seq<Row>>)
    requires limit > 0 && Follows(rows, u, limit, before, pages) && Finished(limit, pages)
    requires DistinctTimes(HistoryOf(rows, u, before))
    ensures Elements(B.Flatten(pages)) == HistoryOf(rows, u, before)
  {
    PagingNeverRepeats(rows, u, limit, before, pages);
    forall r | r in HistoryOf(rows, u, before) ensures r in B.Flatten(pages) {
      if r !in B.Flatten(pages) {
        MissedRowsTieWithACursor(rows, u, limit, before, pages, r);
        var k :| 0 <= k < |pages| - 1 && NextCursor(pages[k], limit) == Some(r.note.createdAt);
        var last := pages[k][|pages[k]| - 1];
        InFlatten(pages, k, last);
        assert false;
      }
    }
  }

  /** A row of the user that the cursor does not exclude. */
  ghost predicate Mine(rows: seq<Row>, u: UserId, before: Option<Time>, r: Row) {
    r in rows && r.note.user == u && (before.Some? ==> r.note.createdAt < before.value)
  }

  lemma HistoryIsMine(rows: seq<Row>, u: UserId, before: Option<Time>, r: Row)
    ensures r in HistoryOf(rows, u, before) <==> Mine(rows, u, before, r)
  {}

  /** Whatever pages a client fetches: they hold rows of the asked user only, none newer than the first cursor allows.
      */
  lemma PagesAreMine(rows: seq<Row>, u: UserId, limit: nat, before: Option<Time>, pages: seq<seq<Row>>)
    requires limit > 0 && Follows(rows, u, limit, before, pages)
    ensures forall r :: r in B.Flatten(pages) ==> Mine(rows, u, before, r)
  {
    PagingNeverRepeats(rows, u, limit, before, pages);
    hide Follows, HistoryOf, Mine;
    forall r | r in B.Flatten(pages) ensures Mine(rows, u, before, r) {
      assert r in Elements(B.Flatten(pages));
      HistoryIsMine(rows, u, before, r);
    }
  }

  /** And if no two of those rows were created at the same time, the finished pages hold every one of them. */
  lemma PagesAreAllMine(rows: seq<Row>, u: UserId, limit: nat, before: Option<Time>, pages: seq<seq<Row>>)
    requires limit > 0 && Follows(rows, u, limit, before, pages) && Finished(limit, pages)
    requires forall a, b :: Mine(rows, u, before, a) && Mine(rows, u, before, b) && a != b ==>
      a.note.createdAt != b.note.createdAt
    ensures forall r :: r in B.Flatten(pages) <==> Mine(rows, u, before, r)
  {
    forall r ensures r in HistoryOf(rows, u, before) <==> Mine(rows, u, before, r) {
      HistoryIsMine(rows, u, before, r);
    }
    hide Follows, HistoryOf, Mine, Finished;
    PagingIsExact(rows, u, limit, before, pages);
    assert forall r :: r in B.Flatten(pages) <==> r in Elements(B.Flatten(pages));
  }

  lemma {:induction false} InFlatten(pages: seq<seq<Row>>, k: nat, r: Row)
    requires k < |pages| && r in pages[k]
    ensures r in B.Flatten(pages)
  {
    if k > 0 { InFlatten(pages[1..], k - 1, r); }
  }

  // ----- Exactly when paging is complete -----

  ghost function NewerThan(s: set<Row>, t: Time): set<Row> {
    set r | r in s && r.note.createdAt > t
  }

  ghost function NoOlderThan(s: set<Row>, t: Time): set<Row> {
    set r | r in s && r.note.createdAt >= t
  }

  /** The end of the `m`-th full page, counted over the whole history, falls inside the rows of time `t`. */
  ghost predicate Cuts(s: set<Row>, limit: nat, t: Time, m: nat) {
    |NewerThan(s, t)| < m * limit < |NoOlderThan(s, t)|
  }

  ghost predicate SomeTieIsCut(s: set<Row>, limit: nat) {
    exists t: Time, m: nat :: Cuts(s, limit, t, m)
  }

  lemma TooFewToCut(s: set<Row>, limit: nat, t: Time, m: nat)
    requires |NoOlderThan(s, t)| <= limit
    ensures !Cuts(s, limit, t, m)
  {
    assert m * limit == (m - 1) * limit + limit;
  }

  lemma SmallIsUncut(s: set<Row>, limit: nat)
    requires |s| <= limit
    ensures !SomeTieIsCut(s, limit)
  {
    forall t: Time, m: nat ensures !Cuts(s, limit, t, m) {
      SubsetSize(NoOlderThan(s, t), s);
      TooFewToCut(s, limit, t, m);
    }
  }

  lemma DisjointSize(a: set<Row>, b: set<Row>)
    requires a !! b
    ensures |a + b| == |a| + |b|
  {}

  lemma SetCuts(all: set<Row>, page: set<Row>, limit: nat, last: Row, left: Row)
    requires page <= all && |page| == limit && last in page && left in all - page
    requires left.note.createdAt >= last.note.createdAt
    requires forall r :: r in page ==> r.note.createdAt >= last.note.createdAt
    requires forall r :: r in all - page ==> r.note.createdAt <= last.note.createdAt
    ensures Cuts(all, limit, last.note.createdAt, 1)
  {
    var t := last.note.createdAt;
    assert NewerThan(all, t) <= page - {last};
    SubsetSize(NewerThan(all, t), page - {last});
    assert page + {left} <= NoOlderThan(all, t);
    SubsetSize(page + {left}, NoOlderThan(all, t));
  }

  /** A full page that leaves rows of its last time behind is itself a cut. */
  lemma PageCuts(rows: seq<Row>, u: UserId, limit: nat, before: Option<Time>, page: seq<Row>)
    requires limit > 0 && IsPage(false, page, HistoryOf(rows, u, before), limit) && NextCursor(page, limit).Some?
    requires var all := HistoryOf(rows, u, before); all != Elements(page) + HistoryOf(rows, u, NextCursor(page, limit))
    ensures SomeTieIsCut(HistoryOf(rows, u, before), limit)
  {
    var all, rest, last := HistoryOf(rows, u, before), HistoryOf(rows, u, NextCursor(page, limit)), page[|page| - 1];
    PageThenRest(rows, u, limit, before, page);
    SizeOfElements(page);
    assert last in Elements(page);
    var left :| left in all - Elements(page) - rest;
    forall r | r in all - Elements(page) ensures r.note.createdAt <= last.note.createdAt {
      assert Precedes(false, page[|page| - 1], r);
    }
    assert forall k :: 0 <= k < |page| ==> page[k].note.createdAt >= last.note.createdAt;
    SetCuts(all, Elements(page), limit, last, left);
    hide HistoryOf, Cuts;
  }

  /** After a full page with nothing left behind, the remaining rows are cut where all of them were, a page earlier. */
  lemma RestIsCutAlike(all: set<Row>, page: set<Row>, rest: set<Row>, limit: nat, end: Time, t: Time)
    requires all == page + rest && page !! rest && |page| == limit
    requires forall r :: r in page ==> r.note.createdAt >= end
    requires forall r :: r in rest ==> r.note.createdAt < end
    ensures t < end ==>
      |NewerThan(all, t)| == limit + |NewerThan(rest, t)| && |NoOlderThan(all, t)| == limit + |NoOlderThan(rest, t)|
    ensures t >= end ==> |NoOlderThan(all, t)| <= limit && NoOlderThan(rest, t) == {}
  {
    if t < end {
      assert NewerThan(all, t) == page + NewerThan(rest, t);
      assert NoOlderThan(all, t) == page + NoOlderThan(rest, t);
    } else {
      SubsetSize(NoOlderThan(all, t), page);
    }
  }

  lemma CutAlike(all: set<Row>, page: set<Row>, rest: set<Row>, limit: nat, end: Time)
    requires all == page + rest && page !! rest && |page| == limit
    requires forall r :: r in page ==> r.note.createdAt >= end
    requires forall r :: r in rest ==> r.note.createdAt < end
    ensures SomeTieIsCut(all, limit) <==> SomeTieIsCut(rest, limit)
  {
    if SomeTieIsCut(all, limit) {
      var t: Time, m: nat :| Cuts(all, limit, t, m);
      RestIsCutAlike(all, page, rest, limit, end, t);
      if t >= end { TooFewToCut(all, limit, t, m); }
      assert m > 0 && m * limit == (m - 1) * limit + limit;
      assert Cuts(rest, limit, t, m - 1);
    }
    if SomeTieIsCut(rest, limit) {
      var t: Time, m: nat :| Cuts(rest, limit, t, m);
      RestIsCutAlike(all, page, rest, limit, end, t);
      assert (m + 1) * limit == m * limit + limit;
      assert Cuts(all, limit, t, m + 1);
    }
  }

  /** For every limit, whatever the tie order: the finished pages are the whole history exactly when no group of equal
      timestamps is cut by the end of a page, counted from the newest row. */
  lemma {:induction false} PagingExactIff(
    rows: seq<Row>, u: UserId, limit: nat, before: Option<Time>, pages: seq<seq<Row>>)
    requires limit > 0 && Follows(rows, u, limit, before, pages) && Finished(limit, pages)
    ensures Elements(B.Flatten(pages)) == HistoryOf(rows, u, before) <==>
      !SomeTieIsCut(HistoryOf(rows, u, before), limit)
    decreases |pages|
  {
    var all, page := HistoryOf(rows, u, before), pages[0];
    assert B.Flatten(pages) == page + B.Flatten(pages[1..]);
    if |pages| == 1 {
      assert B.Flatten(pages) == page;
      ShortPageIsAll(page, all, limit);
      SmallIsUncut(all, limit);
      return;
    }
    var cursor := NextCursor(page, limit);
    PagingNeverRepeats(rows, u, limit, cursor, pages[1..]);
    PagingExactIff(rows, u, limit, cursor, pages[1..]);
    hide IsPage, HistoryOf, SomeTieIsCut, NoRepeats, B.Flatten;
    OneMorePage(rows, u, limit, before, page, B.Flatten(pages[1..]));
  }

  /** Whether the pages are complete after a full page, from whether the following ones are. */
  lemma OneMorePage(rows: seq<Row>, u: UserId, limit: nat, before: Option<Time>, page: seq<Row>, seen: seq<Row>)
    requires limit > 0 && IsPage(false, page, HistoryOf(rows, u, before), limit) && NextCursor(page, limit).Some?
    requires var rest := HistoryOf(rows, u, NextCursor(page, limit));
      Elements(seen) <= rest && (Elements(seen) == rest <==> !SomeTieIsCut(rest, limit))
    ensures Elements(page + seen) == HistoryOf(rows, u, before) <==> !SomeTieIsCut(HistoryOf(rows, u, before), limit)
  {
    var all, rest := HistoryOf(rows, u, before), HistoryOf(rows, u, NextCursor(page, limit));
    PageThenRest(rows, u, limit, before, page);
    assert Elements(page + seen) == Elements(page) + Elements(seen);
    PageAndRest(rows, u, limit, before, page);
    hide SomeTieIsCut, HistoryOf, IsPage, Elements, NextCursor;
    if all != Elements(page) + rest {
      PageCuts(rows, u, limit, before, page);
    } else {
      CutAlike(all, Elements(page), rest, limit, NextCursor(page, limit).value);
    }
  }

  /** A full page is `limit` rows no older than its cursor, and all later candidates are older. */
  lemma PageAndRest(rows: seq<Row>, u: UserId, limit: nat, before: Option<Time>, page: seq<Row>)
    requires limit > 0 && IsPage(false, page, HistoryOf(rows, u, before), limit) && NextCursor(page, limit).Some?
    ensures var (rest, cursor) := (HistoryOf(rows, u, NextCursor(page, limit)), NextCursor(page, limit).value);
      && |Elements(page)| == limit
      && (forall r :: r in Elements(page) ==> r.note.createdAt >= cursor)
      && (forall r :: r in rest ==> r.note.createdAt < cursor)
  {
    SizeOfElements(page);
    assert forall k :: 0 <= k < |page| ==> page[k].note.createdAt >= NextCursor(page, limit).value;
  }

  /** One row a page: complete exactly when no two timestamps are equal. */
  lemma SingleRowPagingExactIff(rows: seq<Row>, u: UserId, before: Option<Time>, pages: seq<seq<Row>>)
    requires Follows(rows, u, 1, before, pages) && Finished(1, pages)
    ensures Elements(B.Flatten(pages)) == HistoryOf(rows, u, before) <==> DistinctTimes(HistoryOf(rows, u, before))
  {
    var s := HistoryOf(rows, u, before);
    PagingExactIff(rows, u, 1, before, pages);
    if DistinctTimes(s) {
      PagingIsExact(rows, u, 1, before, pages);
    } else {
      var a, b :| a in s && b in s && a != b && a.note.createdAt == b.note.createdAt;
      var t := a.note.createdAt;
      assert NoOlderThan(s, t) >= NewerThan(s, t) + {a, b};
      SubsetSize(NewerThan(s, t) + {a, b}, NoOlderThan(s, t));
      DisjointSize(NewerThan(s, t), {a, b});
      assert Cuts(s, 1, t, |NewerThan(s, t)| + 1);
    }
  }
}
