/** The notifications and read_receipts tables, and the queries and transactions over them. */
module Repository {
  import opened Model

  datatype Database = Database(rows: seq<Row>, receipts: seq<Receipt>)

  predicate HasRow(rows: seq<Row>, n: NotificationId) {
    exists k :: 0 <= k < |rows| && rows[k].note.nid == n
  }

  predicate Owns(rows: seq<Row>, n: NotificationId, u: UserId) {
    exists k :: 0 <= k < |rows| && rows[k].note.nid == n && rows[k].note.user == u
  }

  /** INSERT ... ON CONFLICT DO NOTHING RETURNING. */
  function Insert(db: Database, note: Envelope): (Database, Option<Envelope>) {
    if HasRow(db.rows, note.nid) then (db, None)
    else (db.(rows := db.rows + [Row(note, false, None)]), Some(note))
  }

  function SetLive(rows: seq<Row>, n: NotificationId): (r: seq<Row>)
    ensures |r| == |rows|
  {
    seq(|rows|, i requires 0 <= i < |rows| => if rows[i].note.nid == n then rows[i].(live := true) else rows[i])
  }

  function SetRead(rows: seq<Row>, n: NotificationId, u: UserId, at: Time): (r: seq<Row>)
    ensures |r| == |rows|
  {
    seq(|rows|, i requires 0 <= i < |rows| =>
      if rows[i].note.nid == n && rows[i].note.user == u then rows[i].(readAt := Some(at)) else rows[i])
  }

  function MarkLive(db: Database, n: NotificationId): Database {
    db.(rows := SetLive(db.rows, n))
  }

  function RecordRead(db: Database, n: NotificationId, u: UserId, at: Time): Database {
    if Owns(db.rows, n, u)
    then Database(SetRead(db.rows, n, u, at), db.receipts + [Receipt(n, u, at)])
    else db
  }

  class Postgres {
    var db: Database

    constructor ()
      ensures db == Database([], [])
    {
      db := Database([], []);
    }
  }

  class NotificationRepository {
    const session: Postgres

    constructor (session: Postgres)
      ensures this.session == session
    {
      this.session := session;
    }

    method Create(note: Envelope) returns (row: Option<Envelope>)
      modifies session
      ensures (session.db, row) == Insert(old(session.db), note)
      ensures row == Some(note) || row == None
      ensures row.Some? <==> forall r :: r in old(session.db).rows ==> r.note.nid != note.nid
      ensures session.db.receipts == old(session.db).receipts
      ensures session.db.rows == old(session.db).rows + (if row.Some? then [Row(note, false, None)] else [])
    {
      if HasRow(session.db.rows, note.nid) {
        return None;
      }
      session.db := session.db.(rows := session.db.rows + [Row(note, false, None)]);
      row := Some(note);
    }

    method MarkDeliveredLive(n: NotificationId)
      modifies session
      ensures session.db == MarkLive(old(session.db), n)
      ensures session.db.receipts == old(session.db).receipts && |session.db.rows| == |old(session.db).rows|
      ensures forall k :: 0 <= k < |session.db.rows| ==>
        var r := old(session.db).rows[k]; session.db.rows[k] == if r.note.nid == n then r.(live := true) else r
    {
      session.db := session.db.(rows := SetLive(session.db.rows, n));
    }

    /** The update and the receipt are one transaction; the receipt is written only for the owner. */
    method MarkRead(n: NotificationId, u: UserId, at: Time) returns (marked: bool)
      modifies session
      ensures session.db == RecordRead(old(session.db), n, u, at)
      ensures marked == Owns(old(session.db).rows, n, u)
      ensures ReadBy(old(session.db), session.db, n, u, at)
    {
      ReadsOwnRowsOnly(session.db, n, u, at);
      var rows := SetRead(session.db.rows, n, u, at);
      var matched := Owns(session.db.rows, n, u);
      if !matched {
        NothingToRead(session.db.rows, n, u, at);
        session.db := session.db.(rows := rows);
        return false;
      }
      session.db := Database(rows, session.db.receipts + [Receipt(n, u, at)]);
      marked := true;
    }

    method GetUnreadBacklog(u: UserId, limit: nat) returns (page: seq<Row>)
      ensures IsPage(true, page, UnreadOf(session.db.rows, u), limit)
      ensures PageOfBacklog(session.db.rows, u, limit, page)
    {
      var unread := Filter(session.db.rows, (r: Row) => r.note.user == u && r.readAt.None?);
      assert Elements(unread) == UnreadOf(session.db.rows, u);
      page := Query(true, unread, limit);
      PageOfBacklogMeans(session.db.rows, u, limit, page);
    }

    method GetHistory(u: UserId, limit: nat, before: Option<Time>) returns (page: seq<Row>)
      ensures IsPage(false, page, HistoryOf(session.db.rows, u, before), limit)
      ensures PageOfHistory(session.db.rows, u, limit, before, page)
    {
      var mine := Filter(session.db.rows, (r: Row) => InHistory(r, u, before));
      assert Elements(mine) == HistoryOf(session.db.rows, u, before);
      page := Query(false, mine, limit);
      PageOfHistoryMeans(session.db.rows, u, limit, before, page);
    }
  }

  /** What recording that `u` read `n` at `at` comes to: exactly the rows of that id and that user are read at that
      time, every other row is as before, and there is one more receipt if there was such a row and none otherwise. */
  ghost predicate ReadBy(before: Database, after: Database, n: NotificationId, u: UserId, at: Time) {
    && |after.rows| == |before.rows|
    && (forall k :: 0 <= k < |before.rows| ==>
          var r := before.rows[k];
          after.rows[k] == if r.note.nid == n && r.note.user == u then r.(readAt := Some(at)) else r)
    && after.receipts == before.receipts +
       (if exists k :: 0 <= k < |before.rows| && before.rows[k].note.nid == n && before.rows[k].note.user == u
        then [Receipt(n, u, at)] else [])
  }

  lemma ReadsOwnRowsOnly(db: Database, n: NotificationId, u: UserId, at: Time)
    ensures ReadBy(db, RecordRead(db, n, u, at), n, u, at)
  {}

  lemma NothingToRead(rows: seq<Row>, n: NotificationId, u: UserId, at: Time)
    requires !Owns(rows, n, u)
    ensures SetRead(rows, n, u, at) == rows
  {}

  // ----- What every transaction keeps -----

  ghost predicate DistinctIds(rows: seq<Row>) {
    forall i, j :: 0 <= i < j < |rows| ==> rows[i].note.nid != rows[j].note.nid
  }

  /** Rows are never removed and never change but by becoming live or read. */
  ghost predicate Preserves(before: seq<Row>, after: seq<Row>) {
    && |before| <= |after|
    && forall k :: 0 <= k < |before| ==>
         after[k].note == before[k].note && (before[k].live ==> after[k].live) &&
         (before[k].readAt.Some? ==> after[k].readAt.Some?)
  }

  lemma PreservesTransitive(a: seq<Row>, b: seq<Row>, c: seq<Row>)
    requires Preserves(a, b) && Preserves(b, c)
    ensures Preserves(a, c)
  {}

  /** The time of the most recently committed receipt for `n`. */
  ghost function LatestReceipt(receipts: seq<Receipt>, n: NotificationId): Option<Time> {
    if receipts == [] then None
    else if receipts[|receipts| - 1].nid == n then Some(receipts[|receipts| - 1].readAt)
    else LatestReceipt(receipts[..|receipts| - 1], n)
  }

  lemma {:induction false} LatestReceiptExists(receipts: seq<Receipt>, n: NotificationId)
    ensures LatestReceipt(receipts, n).Some? <==> exists k :: 0 <= k < |receipts| && receipts[k].nid == n
  {
    if receipts != [] {
      LatestReceiptExists(receipts[..|receipts| - 1], n);
      assert forall k :: 0 <= k < |receipts| - 1 ==> receipts[..|receipts| - 1][k] == receipts[k];
    }
  }

  /** Every receipt is its notification's owner's, and read_at is the time of the latest receipt, unset without one. */
  ghost predicate ReadStateAgrees(db: Database) {
    && (forall k :: 0 <= k < |db.receipts| ==> Owns(db.rows, db.receipts[k].nid, db.receipts[k].user))
    && (forall k :: 0 <= k < |db.rows| ==> db.rows[k].readAt == LatestReceipt(db.receipts, db.rows[k].note.nid))
  }

  ghost predicate Sound(db: Database) {
    DistinctIds(db.rows) && ReadStateAgrees(db)
  }

  lemma OwnsPreserved(before: seq<Row>, after: seq<Row>, n: NotificationId, u: UserId)
    requires Preserves(before, after) && Owns(before, n, u)
    ensures Owns(after, n, u) && HasRow(after, n)
  {
    var k :| 0 <= k < |before| && before[k].note.nid == n && before[k].note.user == u;
    assert after[k].note == before[k].note;
  }

  lemma ReceiptsStayOwned(before: Database, after: Database)
    requires Preserves(before.rows, after.rows) && before.receipts == after.receipts
    requires forall k ::
      0 <= k < |before.receipts| ==> Owns(before.rows, before.receipts[k].nid, before.receipts[k].user)
    ensures forall k :: 0 <= k < |after.receipts| ==> Owns(after.rows, after.receipts[k].nid, after.receipts[k].user)
  {
    forall k | 0 <= k < |after.receipts| ensures Owns(after.rows, after.receipts[k].nid, after.receipts[k].user) {
      OwnsPreserved(before.rows, after.rows, before.receipts[k].nid, before.receipts[k].user);
    }
  }

  lemma InsertKeeps(db: Database, note: Envelope)
    requires Sound(db)
    ensures Sound(Insert(db, note).0) && Preserves(db.rows, Insert(db, note).0.rows)
    ensures HasRow(Insert(db, note).0.rows, note.nid)
  {
    if !HasRow(db.rows, note.nid) {
      var after := Insert(db, note).0;
      assert after.rows[|db.rows|].note.nid == note.nid;
      ReceiptsStayOwned(db, after);
      LatestReceiptExists(db.receipts, note.nid);
    }
  }

  lemma MarkLiveKeeps(db: Database, n: NotificationId)
    requires Sound(db)
    ensures Sound(MarkLive(db, n)) && Preserves(db.rows, MarkLive(db, n).rows)
  {
    ReceiptsStayOwned(db, MarkLive(db, n));
  }

  lemma RecordReadKeeps(db: Database, n: NotificationId, u: UserId, at: Time)
    requires Sound(db)
    ensures Sound(RecordRead(db, n, u, at)) && Preserves(db.rows, RecordRead(db, n, u, at).rows)
  {
    if Owns(db.rows, n, u) {
      var after := RecordRead(db, n, u, at);
      assert Preserves(db.rows, after.rows);
      OwnsPreserved(db.rows, after.rows, n, u);
      ReceiptsStayOwned(db, Database(after.rows, db.receipts));
      assert after.receipts[..|after.receipts| - 1] == db.receipts;
    }
  }

  // ----- Queries -----

  /** The unread rows of a user. */
  ghost function UnreadOf(rows: seq<Row>, u: UserId): set<Row> {
    set r | r in rows && r.note.user == u && r.readAt.None?
  }

  predicate InHistory(r: Row, u: UserId, before: Option<Time>) {
    r.note.user == u && (before.Some? ==> r.note.createdAt < before.value)
  }

  /** A user's rows, those created before the cursor when there is one. */
  ghost function HistoryOf(rows: seq<Row>, u: UserId, before: Option<Time>): set<Row> {
    set r | r in rows && InHistory(r, u, before)
  }

  predicate Precedes(ascending: bool, a: Row, b: Row) {
    if ascending then a.note.createdAt <= b.note.createdAt else b.note.createdAt <= a.note.createdAt
  }

  ghost predicate Sorted(ascending: bool, page: seq<Row>) {
    forall i, j :: 0 <= i < j < |page| ==> Precedes(ascending, page[i], page[j])
  }

  ghost predicate NoRepeats(page: seq<Row>) {
    forall i, j :: 0 <= i < j < |page| ==> page[i] != page[j]
  }

  ghost function Elements(page: seq<Row>): set<Row> {
    set r | r in page
  }

  /** What ORDER BY created_at LIMIT promises: some choice of the first `limit` candidates. Equal timestamps may
      come in any order, and any of them may be the ones cut off. */
  ghost predicate IsPage(ascending: bool, page: seq<Row>, candidates: set<Row>, limit: nat) {
    && NoRepeats(page) && Sorted(ascending, page)
    && Elements(page) <= candidates
    && |page| == (if |candidates| < limit then |candidates| else limit)
    && forall r, k :: r in candidates && r !in page && 0 <= k < |page| ==> Precedes(ascending, page[k], r)
  }

  /** A backlog in plain terms: unread rows of the user, oldest first, none twice; one that is left out is no older than
      any of them, and there are `limit` of them. */
  ghost predicate PageOfBacklog(rows: seq<Row>, u: UserId, limit: nat, page: seq<Row>) {
    && |page| <= limit
    && (forall k :: 0 <= k < |page| ==> page[k] in rows && page[k].note.user == u && page[k].readAt.None?)
    && (forall j, k :: 0 <= j < k < |page| ==> page[j] != page[k] && page[j].note.createdAt <= page[k].note.createdAt)
    && forall r :: r in rows && r.note.user == u && r.readAt.None? && r !in page ==>
         |page| == limit && forall k :: 0 <= k < |page| ==> page[k].note.createdAt <= r.note.createdAt
  }

  lemma PageOfBacklogMeans(rows: seq<Row>, u: UserId, limit: nat, page: seq<Row>)
    requires IsPage(true, page, UnreadOf(rows, u), limit)
    ensures PageOfBacklog(rows, u, limit, page)
  {
    ShortPageIsWhole(page, UnreadOf(rows, u));
    assert forall k :: 0 <= k < |page| ==> page[k] in Elements(page);
  }

  /** A page of the history in plain terms: rows of the user that are older than the cursor when there is one, newest
      first, none twice; one that is left out is no newer than any of them, and there are `limit` of them. */
  ghost predicate PageOfHistory(rows: seq<Row>, u: UserId, limit: nat, before: Option<Time>, page: seq<Row>) {
    && |page| <= limit
    && (forall k :: 0 <= k < |page| ==>
          page[k] in rows && page[k].note.user == u && (before.Some? ==> page[k].note.createdAt < before.value))
    && (forall j, k :: 0 <= j < k < |page| ==> page[j] != page[k] && page[j].note.createdAt >= page[k].note.createdAt)
    && forall r :: r in rows && r.note.user == u && (before.Some? ==> r.note.createdAt < before.value) && r !in page ==>
         |page| == limit && forall k :: 0 <= k < |page| ==> page[k].note.createdAt >= r.note.createdAt
  }

  lemma PageOfHistoryMeans(rows: seq<Row>, u: UserId, limit: nat, before: Option<Time>, page: seq<Row>)
    requires IsPage(false, page, HistoryOf(rows, u, before), limit)
    ensures PageOfHistory(rows, u, limit, before, page)
  {
    ShortPageIsWhole(page, HistoryOf(rows, u, before));
    assert forall k :: 0 <= k < |page| ==> page[k] in Elements(page);
  }

  /** A page that leaves a candidate out is shorter than the candidates. */
  lemma ShortPageIsWhole(page: seq<Row>, candidates: set<Row>)
    requires NoRepeats(page) && Elements(page) <= candidates
    ensures (exists r :: r in candidates && r !in page) ==> |page| < |candidates|
  {
    SizeOfElements(page);
    if r :| r in candidates && r !in page {
      SubsetSize(Elements(page), candidates - {r});
    }
  }

  function Filter(rows: seq<Row>, keep: Row -> bool): (r: seq<Row>)
    ensures forall x :: x in r <==> x in rows && keep(x)
  {
    if rows == [] then []
    else if keep(rows[0]) then [rows[0]] + Filter(rows[1..], keep) else Filter(rows[1..], keep)
  }

  function Place(ascending: bool, r: Row, page: seq<Row>): (p: seq<Row>)
    ensures forall x :: x in p <==> x == r || x in page
  {
    if page == [] then [r]
    else if Precedes(ascending, r, page[0]) then [r] + page
    else [page[0]] + Place(ascending, r, page[1..])
  }

  function SortRows(ascending: bool, rows: seq<Row>): (p: seq<Row>)
    ensures forall x :: x in p <==> x in rows
  {
    if rows == [] then []
    else
      var rest := SortRows(ascending, rows[1..]);
      if rows[0] in rest then rest else Place(ascending, rows[0], rest)
  }

  function Query(ascending: bool, rows: seq<Row>, limit: nat): (page: seq<Row>)
    ensures IsPage(ascending, page, Elements(rows), limit)
  {
    var sorted := SortRows(ascending, rows);
    SortRowsSorts(ascending, rows);
    assert Elements(sorted) == Elements(rows);
    FirstOfSorted(ascending, sorted, limit);
    if |sorted| < limit then sorted else sorted[..limit]
  }

  lemma {:induction false} PlaceSorts(ascending: bool, r: Row, page: seq<Row>)
    requires Sorted(ascending, page) && NoRepeats(page) && r !in page
    ensures Sorted(ascending, Place(ascending, r, page)) && NoRepeats(Place(ascending, r, page))
  {
    if page != [] && !Precedes(ascending, r, page[0]) {
      PlaceSorts(ascending, r, page[1..]);
      var rest := Place(ascending, r, page[1..]);
      forall x | x in rest ensures Precedes(ascending, page[0], x) && x != page[0] {
        if x in page[1..] {
          var k :| 0 <= k < |page[1..]| && page[1..][k] == x;
          assert page[k + 1] == x;
        }
      }
      assert forall k :: 0 <= k < |rest| ==> rest[k] in rest;
    } else if page != [] {
      assert forall k :: 0 <= k < |page| ==> page[k] in page;
    }
  }

  lemma {:induction false} SortRowsSorts(ascending: bool, rows: seq<Row>)
    ensures Sorted(ascending, SortRows(ascending, rows)) && NoRepeats(SortRows(ascending, rows))
  {
    if rows != [] {
      SortRowsSorts(ascending, rows[1..]);
      if rows[0] !in SortRows(ascending, rows[1..]) {
        PlaceSorts(ascending, rows[0], SortRows(ascending, rows[1..]));
      }
    }
  }

  lemma {:induction false} SizeOfElements(page: seq<Row>)
    requires NoRepeats(page)
    ensures |Elements(page)| == |page|
  {
    if page != [] {
      var n := |page| - 1;
      SizeOfElements(page[..n]);
      assert Elements(page) == Elements(page[..n]) + {page[n]};
    }
  }

  lemma SubsetSize(a: set<Row>, b: set<Row>)
    requires a <= b
    ensures |a| <= |b| && |b - a| == |b| - |a|
  {
    assert b == a + (b - a);
  }

  lemma FirstOfSorted(ascending: bool, sorted: seq<Row>, limit: nat)
    requires Sorted(ascending, sorted) && NoRepeats(sorted)
    ensures IsPage(ascending, if |sorted| < limit then sorted else sorted[..limit], Elements(sorted), limit)
  {
    SizeOfElements(sorted);
  }
}
